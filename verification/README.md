# Sakura Tools: model and proofs

The repository lets a second game client, B, join a session that a first client, A, has open. It
rewrites A's network class at load time, mirrors A's packets to B, hands control to B in the middle
of a session and gives it back. This project models the parts of that where a mistake is easy to
make and hard to see, and proves what they promise.

## What is modelled

**The class-file editor and builder** (`Bytes`, `ConstantPool`, `Attributes`, `ClassFile`,
`StackMapTable`, `DebugTables`, `CodeAttribute`, `RebuildLaws`, `Machine`, `ClassEdit`, `EditRuns`,
`ClassBuilder`). Bytes are bytes, and 16- and 32-bit sums wrap where the source's do. `ClassFileEditor`
and `ClassBuilder` are classes with the source's fields and loops; each method is proved against a
function, and the laws are about these functions: parsing and printing undo each other, any run of
edits survives being printed and parsed again, the tables are relocated as sections 4.7.3, 4.7.4 and
4.7.12 to 4.7.14 of the Java Virtual Machine Specification (Java SE 17) ask, two prepends are one,
and on a small bytecode machine the rewritten method runs the insertion once and then does what the
old one did. The builder's maps give the same pool and indices as a linear search.

**Team rewriting** (`TeamState`, `TeamPackets`). The filter that keeps a model of B's scoreboard,
proved against two other boards: a strict one fed with the sent packets alone, and a tolerant one fed
with the raw stream and no alias.

**The mid-session login** (`LoginHandoff`, `References`, `SessionModel`, `SessionProofs`,
`SessionTheorems`, `SessionStream`, `SessionBuffer`, `SessionMoves`, `ProxyServer`, `RenderQueue`, `WholeDelivery`,
`RelayRead`). A's
packet thread, B's event loop, A's render thread and the controller interleave; each critical section
is a step. `SessionProofs` keeps one invariant over all steps; the files after it state what follows for
every run, `SessionMoves` the exact moments at which login, handoff, buffer and channel change.
`ProxyServer` has the same sections as methods of an object, with the source's loops, and each is
proved to be the model's step. `RenderQueue` adds A's render queue to the session, with the dispatch of
the snapshot job as a step of its own, and says which packets B gets; `WholeDelivery` proves that every
client can be served without a loss; `RelayRead` is the handler that queues A's task and then mirrors.

**The snapshot job** (`SnapshotJob`, `SnapshotTask`), **the callback gate** (`RuntimeGate`,
`RuntimeCallback`) and **the resident controller** (`Controller`, `Lifecycle`): three more step systems
over all interleavings, each with its objects beside it.

**The write filter and the status line** (`PacketPolicy`, `BypassMarks`, `StatusLine`).

## Hypotheses

- Events of one channel are serial, the render thread runs one task at a time, and a channel whose
  close was requested delivers nothing written afterwards. These are built into the steps.
- Prepending keeps a method's meaning when the insertion is straight-line, the moved handler
  addresses fit 16 bits, and every switch that runs keeps its padding (`StraightLine`, `HandlersFit`,
  `AlignedRun`).
- An intention is the first packet of its channel: only where a statement says so (`OneIntention`).
- A's game applies each packet in one task of its render queue, which is first-in first-out and also
  runs the snapshot job (`RenderQueue`).
- Fewer than 2^32 callbacks run at once (`Few`).

## Where the code does less than one would expect

Each of these is a lemma with the exact condition or a concrete input.

- A packet from A that arrives after the snapshot job is dispatched and before its boundary is lost: the
  snapshot does not have it, and the boundary clears it from the buffer (`SnapshotAndStream`,
  `PacketLost`). The comment at `native/server/login.cpp:10` and the one at
  `native/relay_handler.cpp:73` say that nothing is lost.
- A resume request is dropped when the local frame for the start attempt cannot be pushed
  (`RequestGone`, `RequestStays`, `RequestLost`).
- A press of the key is lost when the local frame cannot be pushed (`KeyNeedsFrame`).
- A start between the beginning and the end of a stop lets callbacks in again (`TeardownAlone`,
  `StartDuringStop`).
- A team packet whose last reference cannot be made is tracked but not sent; the boards come apart
  exactly when it changes the board (`FailureKeepsState`, `StreamInSync`, `LateFailureDiverges`).
- A bundle whose iterator throws loses its other packets and leaves the channel open (`BundleComplete`,
  `BundleLoss`).
- A second intention on the client channel leaves a filled buffer outside `Syncing` (`HeldStep`,
  `SecondIntention`).
- Without the accessor of the teleport id the local id can reach A (`LocalIdStaysLocal`).
- A class file whose pool count is 0, or whose last slot starts a two-slot entry, is not printed back
  (`PrintUndoesParse`, `CountZeroChanges`, `WideLastChanges`).
- Interning a string longer than 0xFFFF bytes leaves an ill-formed pool (`AddUtf8Spec`).
- Offsets inside `Uninitialized` types of a stack map are not moved (`ShiftRelocates`,
  `UninitializedStays`).
- An instruction decodes the same behind an insertion exactly when its switch padding is kept; the hook,
  5 bytes long, moves every switch (`MovedIffAligned`, `AlignmentExact`, `HookMovesSwitches`).
- A local range that a first prepend wraps to start 0 is taken for one that began at 0
  (`ShiftLocalsTwice`, `WrapToZero`, `RebuildTwice`, `PrependTwice`); bytes after the inner attributes
  of a Code attribute are dropped (`RebuildNothing`, `TailDropped`).
- A status line narrower than its ellipsis is too wide (`WidthBounded`, `TooNarrow`).

## Model

| member | source | states |
|---|---|---|
| `ConstantPool.FindUtf8Is` | `native/class_edit.cpp:155-166` | the string search returns a slot exactly when that slot holds the string and no earlier one does, and 0 exactly when none does |
| `ConstantPool.FindRefIs` | `native/class_edit.cpp:224-230` | the same for the searches over reference entries |
| `ConstantPool.AddUtf8Spec` | `native/class_edit.cpp:179-186` | the index holds the string and old slots stay; the pool stays well formed, and asking again changes nothing, if and only if the string fits its length field |
| `ConstantPool.AddRefSpec` | `native/class_edit.cpp:168-177` | the same for one reference entry |
| `ConstantPool.AddClassSpec` | `native/class_edit.cpp:188-201` | the index resolves to a class of that name and old slots stay; the pool stays well formed if and only if the name fits, and then asking again changes nothing |
| `ConstantPool.AddNameAndTypeSpec` | `native/class_edit.cpp:203-217` | old slots stay; the pool stays well formed if and only if both strings fit, and then the index resolves to them and asking again changes nothing |
| `ConstantPool.AddMemberRefSpec` | `native/class_edit.cpp:219-235` | old slots stay; the pool stays well formed if and only if all strings fit, and then the index resolves through class and name-and-type to them and asking again changes nothing |
| `ConstantPool.SizesOfFormat` | `native/class_edit.cpp:36-66` | the body length of each tag is the sum of its field widths in section 4.4 of the Java Virtual Machine Specification, and exactly the tags of the format are known |
| `Attributes.TableRoundTrip` | `native/class_edit.cpp:113-120` | an attribute table stands at a place exactly when reading there gives it, and the position after it |
| `Attributes.ReadTableSound` | `native/class_edit.cpp:133-139` | whatever the skipping loop passes over is the printed form of the attributes it saw |
| `ClassFile.PoolFillsCount` | `native/class_edit.cpp:82-95` | the pool loop leaves exactly count slots unless the last slot starts a two-slot entry |
| `ClassFile.ParsePrinted` | `native/class_edit.cpp:72-144` | every parsed file has a well-formed pool, and all its bytes after the header are those the printer writes for it |
| `ClassFile.PrintUndoesParse` | `native/class_edit.cpp:506-541` | printing a parsed file gives its bytes back if and only if its count is at least 1 and its last slot does not start a two-slot entry |
| `ClassFile.CountZeroChanges` | `native/class_edit.cpp:78-82` | a concrete file with count 0 is parsed and printed back differently |
| `ClassFile.WideLastChanges` | `native/class_edit.cpp:90-94` | so is a concrete file whose last slot starts a two-slot entry |
| `ClassFile.ParseUndoesPrint` | `native/class_edit.cpp:506-541` | parsing the printed form of any well-formed class file gives that class file |
| `ClassFile.ValueIsHeld` | `native/class_edit.cpp:146-153` | a nonempty string is the value at an index if and only if a string entry there holds it |
| `ClassFile.OwnNameIs` | `native/class_edit.cpp:97-109` | the class's own name is the string that its class entry names |
| `ClassFile.HeadLayout` | `native/class_edit.cpp:510-526` | magic, versions, pool count, flags, class, superclass and interface count stand at the places of section 4.1 of the Java Virtual Machine Specification, high byte first |
| `ClassFile.MemberLayout` | `native/class_edit.cpp:532-537` | so do the fields of a member, in the order of sections 4.5 and 4.6 of the Java Virtual Machine Specification |
| `StackMapTable.ShiftStackMap` | `native/class_edit.cpp:237-339` | the branches on the first tag write the shifted table, for every tag and delta |
| `StackMapTable.ShiftDecodes` | `native/class_edit.cpp:262-338` | the shifted table decodes, by the grammar of JVMS 4.7.4, to the old frames with only the first delta changed |
| `StackMapTable.ShiftOffsets` | `native/class_edit.cpp:262-338` | frame count, kinds and types are kept, and every absolute offset moves by exactly the shift if and only if the first one fits 16 bits; the table is 0 or 2 bytes longer |
| `StackMapTable.ShiftRelocates` | `native/class_edit.cpp:237-339` | the result is the relocated table if and only if nothing is inserted, or the first offset fits and no frame has an uninitialized type |
| `StackMapTable.UninitializedStays` | `native/class_edit.cpp:262-338` | a concrete table whose uninitialized type keeps its old offset |
| `StackMapTable.ShiftTwice` | `native/class_edit.cpp:256-285` | shifting twice writes the bytes of shifting once by the sum, compact-to-extended promotion included |
| `StackMapTable.ShiftNothing` | `native/class_edit.cpp:237-339` | shifting by 0 is the identity |
| `DebugTables.ShiftLineNumberTable` | `native/class_edit.cpp:341-354` | the patching loop writes the shifted line table; short tables stay |
| `DebugTables.ShiftLocalVarTable` | `native/class_edit.cpp:356-379` | the patching loop writes the shifted local variable table; short tables stay |
| `DebugTables.ShiftedTable` | `native/class_edit.cpp:341-379` | the shifted table has the same number of entries in the same order, and the i-th is the shifted i-th |
| `DebugTables.LinesRelocated` | `native/class_edit.cpp:341-354` | line numbers, order and count are kept, and a start moves by exactly the shift if and only if the sum fits |
| `DebugTables.LivenessRelocated` | `native/class_edit.cpp:364-376` | a variable is live past the insertion exactly as before it, and inside it exactly when its range began at 0, if and only if its range fits |
| `DebugTables.LocalsRelocated` | `native/class_edit.cpp:356-379` | that equivalence for every entry of a table, with names, descriptors and slots kept |
| `DebugTables.ShiftLinesTwice` | `native/class_edit.cpp:341-354` | shifting a line table twice writes the bytes of shifting once by the sum |
| `DebugTables.ShiftLocalsTwice` | `native/class_edit.cpp:368-376` | the same for local tables if and only if no start wraps to 0 on the way |
| `DebugTables.WrapToZero` | `native/class_edit.cpp:368-376` | a concrete table on which two shifts by 1 differ from one by 2 |
| `DebugTables.ShiftNothing` | `native/class_edit.cpp:341-379` | shifting by 0 is the identity |
| `CodeAttribute.CodeRoundTrip` | `native/class_edit.cpp:430-441` | a Code attribute body reads as a structure exactly when it is its printed form |
| `CodeAttribute.RebuiltCodeReads` | `native/class_edit.cpp:489-500` | reading the rebuilt Code attribute gives the insertion before the old code, all handlers and inner tables shifted, and the larger stack |
| `CodeAttribute.RebuiltTableReads` | `native/class_edit.cpp:402-504` | the rebuilt attribute table reads as the rebuilt attributes, the others unchanged |
| `CodeAttribute.SizesLayout` | `native/class_edit.cpp:489-492` | the two sizes and the code length stand at the places of section 4.7.3 of the Java Virtual Machine Specification |
| `CodeAttribute.HandlerLayout` | `native/class_edit.cpp:478-487` | so do the fields of an exception table entry |
| `CodeAttribute.ShiftInnerMoves` | `native/class_edit.cpp:448-473` | by the literal name of an inner attribute: frames keep kinds and types and move exactly when the first offset fits, lines move, variables stay live at the same instructions, and any other body and every name stays |
| `RebuildLaws.RebuildTwice` | `native/class_edit.cpp:402-504` | prepending x then y writes the bytes of prepending y + x with the larger extra stack, if and only if no local range wraps to start 0 on the way |
| `RebuildLaws.InsideCodeNoWrap` | `native/class_edit.cpp:364-376` | ranges inside code that stays within 0xFFFF bytes meet that condition |
| `RebuildLaws.RebuildNothing` | `native/class_edit.cpp:402-504` | an empty insertion with no extra stack is the identity if and only if no Code attribute has trailing bytes |
| `RebuildLaws.TailDropped` | `native/class_edit.cpp:430-496` | a concrete Code attribute that loses its trailing byte |
| `Machine.RebuildPrepends` | `native/class_edit.cpp:475-495` | the rebuilt code array and exception table are those of the prepended machine method |
| `Machine.DecodeMoved` | `native/class_edit.cpp:493-494` | an aligned instruction decodes the same behind the insertion |
| `Machine.MovedIffAligned` | `native/class_edit.cpp:493-494` | a whole instruction decodes the same behind the insertion if and only if it is no switch or the insertion keeps its padding |
| `Machine.AlignmentExact` | `native/class_edit.cpp:493-494` | all instructions of a method decode the same behind an insertion if and only if its length is a multiple of 4 or none of them is a switch |
| `Machine.HandlerMoved` | `native/class_edit.cpp:478-487` | the handler found for a moved pc is the moved handler |
| `Machine.InsertionUncovered` | `native/class_edit.cpp:478-487` | no old handler covers the insertion |
| `Machine.StepMoved` | `native/class_edit.cpp:402-504` | one step of the old method is one step of the new one, the insertion length further on, exceptions included |
| `Machine.RunMoved` | `native/class_edit.cpp:402-504` | the same for every number of steps |
| `Machine.InsertionRuns` | `native/class_edit.cpp:493-494` | a straight-line insertion runs inside its own bytes and ends at the first old instruction |
| `Machine.InsertionThrows` | `native/class_edit.cpp:478-487` | an exception raised in the insertion leaves the method |
| `Machine.PrependKeepsMeaning` | `native/class_edit.cpp:402-504` | the new method runs the insertion once and is then, after every number of steps, in the moved state of the old one |
| `Machine.NeverReenters` | `native/class_edit.cpp:402-504` | once past the insertion no step goes back into it |
| `Machine.HookIsStraight` | `native/connection_hook.cpp:46-50` | the inserted call is straight-line exactly when its three instructions fall through, and then takes three steps |
| `Machine.HookMovesSwitches` | `native/connection_hook.cpp:46-54` | all instructions of a method survive the insertion of the hook if and only if none is a switch |
| `ClassEdit.ClassFileEditor.Parse` | `native/class_edit.cpp:72-144` | the cursor loops fill the fields with the parsed class file, or report the error the source throws |
| `ClassEdit.ClassFileEditor.ReadPool` | `native/class_edit.cpp:78-95` | the pool loop with its wrapping u2 index computes the parsed pool |
| `ClassEdit.ClassFileEditor.SkipFields` | `native/class_edit.cpp:111-122` | the skipped field bytes are exactly one member table |
| `ClassEdit.ClassFileEditor.ReadMethods` | `native/class_edit.cpp:124-141` | the method loop computes the parsed methods |
| `ClassEdit.ClassFileEditor.Serialize` | `native/class_edit.cpp:506-541` | the appending loops write the printed form of the object |
| `ClassEdit.ClassFileEditor.FindUtf8` | `native/class_edit.cpp:155-166` | the scan returns the first slot holding the string, or 0, whenever the search of the source ends |
| `ClassEdit.ClassFileEditor.AddUtf8` | `native/class_edit.cpp:179-186` | new pool and index are those of interning the string |
| `ClassEdit.ClassFileEditor.AddClass` | `native/class_edit.cpp:188-201` | new pool and index are those of interning the class |
| `ClassEdit.ClassFileEditor.AddNameAndType` | `native/class_edit.cpp:203-217` | new pool and index are those of interning the pair |
| `ClassEdit.ClassFileEditor.AddMethodRef` | `native/class_edit.cpp:219-235` | new pool and index are those of interning the method reference |
| `ClassEdit.ClassFileEditor.RebuildHandlers` | `native/class_edit.cpp:475-487` | the exception table loop writes the shifted handlers |
| `ClassEdit.ClassFileEditor.RebuildInner` | `native/class_edit.cpp:448-473` | the inner loop writes the table of shifted inner attributes |
| `ClassEdit.ClassFileEditor.RebuildBody` | `native/class_edit.cpp:430-496` | one Code body becomes the printed rebuilt code |
| `ClassEdit.ClassFileEditor.RebuildCodeAttribute` | `native/class_edit.cpp:402-504` | the outer loop writes the rebuilt attribute table |
| `ClassEdit.ClassFileEditor.PrependToMethodCode` | `native/class_edit.cpp:381-400` | exactly the first matching method is rebuilt and the pool gains at most the string Code; false exactly when there is none |
| `EditRuns.RunKeeps` | `native/class_edit.cpp:168-400` | a run of edits keeps every pre-existing slot, all fields, class attributes, flags and all methods it does not rebuild |
| `EditRuns.EditsSurviveReparse` | `native/class_edit.cpp:72-144` | after any run of edits on a parsed file, parsing the printed bytes gives the edited object, with all of the above kept |
| `EditRuns.PrependTwice` | `native/class_edit.cpp:381-400` | two prepends to one method leave the class file of one prepend if and only if no local range wraps to start 0 |
| `EditRuns.PrependedMethod` | `native/class_edit.cpp:381-504` | every Code attribute of the target reads afterwards as the prepended machine method, with the larger of both stacks and the same locals |
| `EditRuns.PrependedTables` | `native/class_edit.cpp:381-504` | every table inside every Code attribute of the target describes afterwards the same instructions further on, table by table and by literal name; all others are unchanged |
| `EditRuns.TargetIsFirst` | `native/class_edit.cpp:381-398` | the method that is rebuilt is the first that bears name and descriptor, and none is exactly when none does |
| `ClassBuilding.KeysInjective` | `native/classfile.cpp:64-80` | the packed keys determine tag and both indices |
| `ClassBuilding.LookupIsFind` | `native/classfile.cpp:53-96` | while map and pool agree, a map lookup finds what the linear search finds |
| `ClassBuilding.LookupIsFindUtf8` | `native/classfile.cpp:34-37` | the same for strings |
| `ClassBuilding.AgreeExtend` | `native/classfile.cpp:53-112` | filing a new entry keeps every map in agreement with the pool |
| `ClassBuilding.ClassBuilder.AddEntry` | `native/classfile.cpp:25-32` | the entry is appended even when the call then fails on a full pool |
| `ClassBuilding.ClassBuilder.Utf8` | `native/classfile.cpp:39-51` | pool and index are those of the linear search; a long string or a full pool is refused |
| `ClassBuilding.ClassBuilder.ClassRef` | `native/classfile.cpp:53-62` | pool and index are those of the linear search |
| `ClassBuilding.ClassBuilder.NameAndType` | `native/classfile.cpp:64-76` | pool and index are those of the linear search |
| `ClassBuilding.ClassBuilder.MemberRef` | `native/classfile.cpp:78-112` | pool and index are those of the linear search, for methods and fields |
| `ClassBuilding.ClassBuilder.StringRef` | `native/classfile.cpp:114-119` | every call appends an entry for the interned string |
| `ClassBuilding.StringIs` | `native/classfile.cpp:114-119` | the new last entry is a string entry that names the string, and old slots stay |
| `ClassBuilding.ClassBuilder.AddNativeMethod` | `native/classfile.cpp:121-130` | a method without code and with the native flag is added under interned names; refused exactly when a string is too long or the pool full |
| `ClassBuilding.NativeBit` | `native/classfile.cpp:125` | exactly the bit 0x100 of the flags is set |
| `ClassBuilding.ClassBuilder.AddCodedMethod` | `native/classfile.cpp:132-159` | a method with one Code attribute is added under interned names, the string Code being interned once; refused exactly when a string is too long or the pool full |
| `ClassBuilding.BuiltMethodsLegal` | `native/classfile.cpp:139-151` | the attribute table of a built method can be read, and its Code attribute reads as the given code |
| `ClassBuilding.ClassBuilder.Build` | `native/classfile.cpp:161-202` | the bytes are the printed described class, and the editor parses them back to exactly that class |
| `ClassBuilding.RunCalls` | `native/classfile.cpp:34-119` | any sequence of interning calls succeeds exactly when strings and pool fit, and then gives the linear search's pool and indices, call by call |
| `TeamState.Roster.Apply` | `native/team_state.h:17-61` | the loops compute the filter step: new board and update |
| `TeamState.Roster.EraseTeam` | `native/team_state.h:26-31` | exactly the members of the team are erased |
| `TeamState.Roster.Walk` | `native/team_state.h:44-57` | the candidate loop computes the new members and the reported players |
| `TeamState.ProcessDistinct` | `native/team_state.h:44-57` | no player is reported twice |
| `TeamState.FilterStep` | `native/team_state.h:17-61` | a sent update never faults on a strict scoreboard and leaves it as tracked; a suppressed one changes nothing |
| `TeamState.SentIfDue` | `native/team_state.h:17-61` | an update is sent if and only if its action is known, its team is known or new, an addition names somebody and a removal somebody on the team; it names exactly the players that follow, or exactly those on the team |
| `TeamState.FilterAliases` | `native/team_state.h:37-43` | one filter step on the aliased board is the alias of one unaliased step on the raw packet |
| `TeamState.TrackAliases` | `native/team_state.h:17-61` | for every stream the tracked board is the unaliased reference run on the raw stream with b's entry replaced by a's |
| `TeamState.TrackValid` | `native/team_state.h:17-61` | after every stream every member's team exists |
| `TeamState.BFollowsA` | `native/team_state.h:38-43` | after every stream b is on exactly a's team, or on none when a is on none |
| `TeamPackets.TeamFilter.PrepareTeamPacket` | `native/server/teams.cpp:24-91` | the copy, apply, build and commit sequence computes the preparation, for every place where a call may fail |
| `TeamPackets.PreparedExactly` | `native/server/teams.cpp:24-91` | nothing comes out exactly when a call fails on the way of a packet that gets that far; otherwise the packet is sent exactly when it is due, with its team, action and due players |
| `TeamPackets.FilterKeeps` | `native/team_state.h:17-61` | the filter leaves the board as it is on exactly the packets whose team and players say so |
| `TeamPackets.FailureKeepsState` | `native/server/teams.cpp:24-91` | a failed preparation leaves the board as it was if and only if the commit was not reached or the packet changes nothing on the board |
| `TeamPackets.PrepareInSync` | `native/server/teams.cpp:24-91` | one preparation keeps B's scoreboard and the tracked one equal if and only if the last reference does not fail on a packet that changes the board |
| `TeamPackets.StreamInSync` | `native/server/teams.cpp:24-91` | for every stream and every pattern of failures B's scoreboard never faults and equals the tracked one all along, if and only if each late failure meets a packet that changes nothing |
| `TeamPackets.LateFailureDiverges` | `native/server/teams.cpp:82-84` | a concrete late failure after which the two boards differ |
| `LoginHandoff.LoginHandoff.Begin` | `native/login_handoff.h:13-16` | capturing, with a deadline 20 seconds on |
| `LoginHandoff.LoginHandoff.SnapshotSent` | `native/login_handoff.h:17-21` | only from capturing, to awaiting the acknowledgement |
| `LoginHandoff.LoginHandoff.Acknowledge` | `native/login_handoff.h:22-26` | consumes the local id in any state, and moves only when one is awaited |
| `LoginHandoff.LoginHandoff.Expired` | `native/login_handoff.h:27-29` | only while capturing or awaiting, from the deadline on |
| `ProxyServers.ProxyServer.ClearPendingPackets` | `native/server/lifecycle.cpp:6-10` | the loop deletes each buffered reference once, in order, and empties the buffer |
| `ProxyServers.ProxyServer.WriteClientPacket` | `native/server/forwarding.cpp:206-232` | a leaf is skipped, written, or closes the channel |
| `ProxyServers.ProxyServer.ForwardBundleExpanded` | `native/server/forwarding.cpp:234-283` | the recursive iteration delivers the reached leaves of nested bundles in order |
| `ProxyServers.ProxyServer.ForwardToB` | `native/server/forwarding.cpp:399-438` | is the forwarding step: drop, ignore other protocols, buffer, overflow, or deliver |
| `ProxyServers.ProxyServer.PacketFromA` | `native/relay_handler.cpp:79-80` | is the step of a packet from A; only game packets change anything |
| `ProxyServers.ProxyServer.LoginIntention` | `native/server/forwarding.cpp:307-324` | is the intention step: the first channel is taken, another is turned away, and one without a reference changes nothing |
| `ProxyServers.ProxyServer.BeginSync` | `native/server/login.cpp:185-190` | is the begin step |
| `ProxyServers.ProxyServer.BeginSnapshot` | `native/server/login.cpp:6-14` | is the boundary step; true exactly when capturing and not stopping |
| `ProxyServers.ProxyServer.SendSnapshot` | `native/server/login.cpp:203-213` | sends the captured packets up to the first failure and releases each of them once whatever happens |
| `ProxyServers.PassedExactly` | `native/server/login.cpp:203-213` | exactly the packets that are written before the first rejected one reach B |
| `ProxyServers.ProxyServer.WriteSnapshot` | `native/server/login.cpp:202-223` | is the snapshot-writing step |
| `ProxyServers.ProxyServer.DrainPending` | `native/server/login.cpp:342-347` | the loop is the drain of the model, with a stop request at any point |
| `ProxyServers.ProxyServer.FinishLogin` | `native/server/login.cpp:332-365` | is the step that ends the login, on all its paths |
| `ProxyServers.ProxyServer.PacketFromB` | `native/server/forwarding.cpp:361-392` | is the step of a packet from B: ignore, acknowledge, or route |
| `ProxyServers.ProxyServer.ChannelInactive` | `native/server/transport.cpp:151-188` | is the step of a closed channel |
| `ProxyServers.ProxyServer.CheckLoginTimeout` | `native/server/lifecycle.cpp:107-127` | is the timeout step, for an expired or failed handoff |
| `ProxyServers.ProxyServer.Release` | `native/server/lifecycle.cpp:225-250` | is the step that ends a session |
| `SessionProofs.ForwardKeeps` | `native/server/forwarding.cpp:425-437` | delivering one more packet extends a complete stream to a complete one, or ends it |
| `SessionProofs.DrainKeeps` | `native/server/login.cpp:342-347` | draining delivers the buffered packets in order after what was delivered before |
| `SessionProofs.KeepStep` | `native/server/login.cpp:185-365` | every step of every thread keeps the invariant on control, jobs, buffer and stream |
| `SessionProofs.KeepRun` | `native/server/forwarding.cpp:361-438` | so does every run |
| `SessionTheorems.RoutedOnlyAfterHandover` | `native/server/forwarding.cpp:388-392` | in every run a routed packet is preceded, on its channel and with no failure, reset or new begin since, by begin, the job's boundary, its written snapshot, snapshotSent and the local acknowledgement; or by a login before A was in a game |
| `SessionTheorems.LiveOnlyAfterSnapshot` | `native/server/login.cpp:332-347` | in every run a live packet is preceded likewise by begin, boundary, snapshot and snapshotSent of its login |
| `SessionTheorems.OnlyAllowedRouted` | `native/server/forwarding.cpp:373-391` | only what the policy allows is routed, never the local id when its accessor is bound, and without the accessor there is no acknowledgement |
| `SessionTheorems.LocalIdStaysLocal` | `native/server/forwarding.cpp:373-386` | the local id can reach A if and only if the accessor is not bound |
| `SessionTheorems.AckOnlyWhenAwaited` | `native/login_handoff.h:22-26` | in every reachable state the local id changes something if and only if it is awaited on that channel |
| `SessionStream.SinceIsSuffix` | `native/server/login.cpp:6-14` | the packets counted as live are those that arrived since the last begin, boundary or direct start |
| `SessionStream.LiveStreamContiguous` | `native/server/forwarding.cpp:399-438` | in every run B's live ids are a prefix of what those packets give, without gap, duplicate or reordering, and all of it while the login is up and nothing closed |
| `RenderQueues.KeepStepQ` | `native/relay_handler.cpp:73-80` | every step of the session, the dispatch, the render thread and the relay keeps where packets and jobs stand in the queue, what the snapshot has and what the live stream starts from |
| `RenderQueues.SessionRun` | `native/relay_handler.cpp:65-80` | the session of a run with the queue is a run of the session model |
| `RenderQueues.SnapshotAndStream` | `native/world_snapshot.cpp:197-267` | in every run the snapshot has exactly the packets before its dispatch and the live stream exactly those after its boundary; together they are everything, each once, if and only if nothing due arrived between |
| `RenderQueues.PacketLost` | `native/server/login.cpp:6-14` | a run without a failure in which a packet between dispatch and boundary is lost |
| `RenderQueues.QueuedExactly` | `native/relay_handler.cpp:65-80` | every game packet of A is queued once, admitted or not, the job of a login once, and the render thread takes from the front while no job runs |
| `WholeDelivery.NothingLost` | `native/world_snapshot.cpp:197-267` | from every reachable state with any render queue a login can be served so that snapshot and stream together give B everything, each packet once; only a refused leaf spoils it |
| `RelayReads.Relay.ChannelRead` | `native/relay_handler.cpp:65-80` | queues A's task and then mirrors, as one step; without admission it only queues |
| `RelayReads.Relay.Execute` | `native/world_snapshot.cpp:261-267` | is the dispatch step |
| `SessionStream.NothingAfterGap` | `native/server/forwarding.cpp:411-437` | once a live packet is dropped B receives no later one until another login begins |
| `SessionStream.BundleComplete` | `native/server/forwarding.cpp:254-278` | all leaves of a bundle are forwarded if and only if no iteration ends before a leaf |
| `SessionStream.BundleLoss` | `native/server/forwarding.cpp:256-266` | an iteration that throws loses a leaf and changes nothing else |
| `SessionStream.HandoverCompletes` | `native/server/login.cpp:170-365` | a run in which the whole handover happens, with a packet on each side of the boundary |
| `SessionBuffer.HeldStep` | `native/server/forwarding.cpp:307-318` | a step lets the buffer hold something outside Syncing if and only if it is an intention on the client channel that meets something held |
| `SessionBuffer.BufferBounded` | `native/server/forwarding.cpp:411-423` | in every run the buffer has at most 8192 entries and is empty unless capturing; all along empty unless Syncing if and only if no such intention comes, as with one intention per channel |
| `SessionBuffer.SecondIntention` | `native/server/forwarding.cpp:307-318` | a run with a second intention that leaves the buffer filled outside Syncing |
| `SessionBuffer.EachReferenceOnce` | `native/server/lifecycle.cpp:6-10` | in every run each reference made for the buffer is in it or was deleted, exactly once |
| `SessionBuffer.NothingLeftAfterStop` | `native/server/lifecycle.cpp:246-250` | after a completed stop each was deleted exactly once |
| `SessionMoves.MovesExactly` | `native/server/forwarding.cpp:307-438` | over every run and for every event of every thread, handoff, client state, channel and buffer change exactly at the named moments of a login |
| `SessionMoves.OverflowsExactly` | `native/server/forwarding.cpp:411-423` | over every run, a game packet fails a capturing handoff if and only if 8192 packets are held or its reference cannot be made; otherwise it is held as the last one, the earlier ones stay and none is released |
| `SessionMoves.ManyHeld` | `native/server/login.cpp:332-365` | for every list of up to 8192 ids, a run that holds all of them at once, drains them to B in order and hands control over |
| `SessionMoves.LoginServed` | `native/server/login.cpp:170-365` | from every reachable state in which a client asks for a mid-session login while the render thread is free, and for all packets that come meanwhile, up to 8192: all are held at once, B gets all their leaves in order and control; only a refused leaf spoils it |
| `SessionMoves.DirectServed` | `native/server/login.cpp:332-365` | a login before A is in a game gives control at once, from every reachable state |
| `SessionMoves.SessionRestarts` | `native/server/lifecycle.cpp:139-253` | from every reachable state without a running login, a stop and a start leave a blank session that serves the next client |
| `SessionMoves.RoutedExactly` | `native/server/forwarding.cpp:361-392` | in every reachable state a packet of B is routed if and only if it comes on the client channel after its login, the client plays, the policy lets it through and it is not the local id with its accessor bound |
| `SessionMoves.ShutsExactly` | `native/server/forwarding.cpp:206-232` | over every run the client channel is asked to close exactly on a refused leaf, a failed begin, capture or snapshot, a failed end of the login or a timeout, and stays so until it is let go |
| `SnapshotJobs.KeepStep` | `native/world_snapshot.cpp:186-290` | every step of waiter and runner keeps stages, places of the packets and the reference ledger |
| `SnapshotJobs.NeverDeletedTwice` | `native/world_snapshot.cpp:186-290` | in every interleaving no reference is deleted twice or after it was handed over |
| `SnapshotJobs.EachReferenceReleasedOnce` | `native/world_snapshot.cpp:247-290` | at the end each reference was deleted once or handed over once; all packets on true, none on false |
| `SnapshotJobs.AliveWhileCapturing` | `native/world_snapshot.cpp:197-204` | what the capture uses is alive while it runs, even after cancellation |
| `SnapshotJobs.CapturesExactly` | `native/world_snapshot.cpp:196-207` | a taken job captures if and only if the callback is admitted, the wait was not given up and the boundary is passed |
| `SnapshotJobs.FinishesExactly` | `native/world_snapshot.cpp:203-214` | a job gives its packets if and only if the capture did not throw and the wait was not given up meanwhile; otherwise all of them are deleted |
| `SnapshotJobs.GivesUp` | `native/world_snapshot.cpp:268-290` | a wait whose time is up deletes a job nobody took and leaves a taken one to the render thread |
| `SnapshotJobs.DispatchFails` | `native/world_snapshot.cpp:261-290` | a job whose dispatch failed ends likewise, even if it was queued and has run |
| `SnapshotJobs.JobSucceeds` | `native/world_snapshot.cpp:243-276` | for every number of packets, a run in which all are handed over |
| `SnapshotTasks.JobList.Remove` | `native/world_snapshot.cpp:188-194` | the job with that Java task, if listed, is taken off the list, and nothing else |
| `SnapshotTasks.SnapshotJob.EndWait` | `native/world_snapshot.cpp:270-276` | is the end of the wait: hand over, or give up |
| `SnapshotTasks.SnapshotJob.Cancel` | `native/world_snapshot.cpp:277-281` | is the cancelling step |
| `SnapshotTasks.SnapshotJob.Reap` | `native/world_snapshot.cpp:282-287` | is the reaping step: an untaken job is discarded, a taken one left to the runner |
| `SnapshotTasks.SnapshotJob.Taken` | `native/world_snapshot.cpp:188-194` | is the taking step |
| `SnapshotTasks.SnapshotJob.DeletePackets` | `native/world_snapshot.cpp:37-40` | deletes each packet once, in order |
| `SnapshotTasks.SnapshotJob.Finish` | `native/world_snapshot.cpp:207-214` | is the finishing step |
| `RuntimeGates.InFlightCounts` | `native/runtime_gate.h:10-33` | in every interleaving the counter is the number of admitted callbacks that have not left |
| `RuntimeGates.TeardownAlone` | `native/runtime_gate.h:29-33` | after a stop that returned true no callback runs or is admitted until the next start, if and only if the gate is closed when it returns |
| `RuntimeGates.ClosedIffShut` | `native/runtime_gate.h:20-33` | the gate is closed exactly when a stop began after every start |
| `RuntimeGates.StartDuringStop` | `native/runtime_gate.h:20-28` | a concrete start during a stop: the stop returns true and a callback enters |
| `RuntimeGates.EntersExactly` | `native/runtime_gate.h:10-33` | in every run a callback is admitted if and only if a start came after every stop |
| `RuntimeGates.StopsExactly` | `native/runtime_gate.h:29-33` | in every run a waiting stop returns if and only if no callback runs or its time is up |
| `RuntimeGates.AllLeave` | `native/runtime_gate.h:16-33` | once every running callback has left, in any order, the stop finds none |
| `RuntimeCallbacks.RuntimeGate.Enter` | `native/runtime_gate.h:10-15` | is the entering step; true exactly when admitted |
| `RuntimeCallbacks.RuntimeGate.Leave` | `native/runtime_gate.h:16-19` | is the leaving step |
| `RuntimeCallbacks.RuntimeGate.EndStop` | `native/runtime_gate.h:29-33` | is one look of the wait; a true stop leaves no callback behind |
| `RuntimeCallbacks.RuntimeCallback.Destroy` | `native/runtime_gate.h:47-56` | leaves once if it entered, and not otherwise |
| `RuntimeCallbacks.DeleteKeyEdge.Update` | `native/runtime_gate.h:58-67` | reports exactly the presses of the samples so far |
| `RuntimeCallbacks.PressIsRise` | `native/runtime_gate.h:60-64` | a press is a rise of the key with the window in front; a key held from the start gives none |
| `RuntimeCallbacks.ReleaseBetweenPresses` | `native/runtime_gate.h:60-64` | between two presses the key was up |
| `Controller.KeepStep` | `native/loader.cpp:117-152` | every step of the controller and of the other threads keeps the invariant |
| `Controller.SessionsStartBlank` | `native/loader.cpp:126-138` | in every run an active session is clean, and a start attempt begins with the gate closed, nothing in flight and nothing left of an earlier session |
| `Controller.ReleasedAlone` | `native/loader.cpp:55-69` | while references are released, the hook removed and the relay detached, the gate is closed and no callback runs |
| `Controller.RequestGone` | `native/loader.cpp:117-152` | with no session active, a step leaves no request exactly when an attempt took it up, the key dropped it, or the local frame was refused |
| `Controller.RequestStays` | `native/loader.cpp:117-151` | a request that neither an attempt nor the key takes stays pending through any cleanups if and only if no attempt is refused its local frame |
| `Controller.RequestLost` | `native/loader.cpp:126-138` | the run in which the first request is lost, after which nothing starts without a signal |
| `Controller.StopByKey` | `native/loader.cpp:139-148` | a stop of the key ends and leaves no session and no request |
| `Controller.KeyNeedsFrame` | `native/loader.cpp:139-148` | after a press the session ends if and only if the local frame can be pushed; otherwise it stays until something else ends it, and the press is consumed |
| `Controller.GateRun` | `native/loader.cpp:55-63` | what the controller and its callbacks do to the gate is a run of the gate's own model |
| `Controller.RefusedOnlyWhenStopping` | `native/loader.cpp:55-63` | in every run a callback is refused only while the session is stopping |
| `Controller.RequestServed` | `native/loader.cpp:117-138` | in a world in which every call works, a pending request runs a session within 19 turns, after any failed stops |
| `Controller.SignalServed` | `native/loader.cpp:117-151` | in every run, a signal to an inactive controller is served likewise |
| `Controller.SignalKept` | `native/loader.cpp:139-151` | a signal is kept through starts, sessions and stops, exactly until a press of the key clears it or a wait takes it |
| `Controller.LateCapture` | `native/loader.cpp:37-44` | failed tries before the one that captures the connection do no harm, however many and whatever they leave behind |
| `Controller.WaitsForClient` | `native/loader.cpp:49-50` | an attempt that finds A without a connection runs a session with one task more on A's main thread |
| `Controller.SessionGoesOn` | `native/loader.cpp:117-151` | an undisturbed turn keeps a running session as it is, except that an expired or failed login is reset and its buffer emptied |
| `Controller.KeyLookedAt` | `native/loader.cpp:139-151` | every turn looks at the key once, and only that look begins the stop of the key |
| `Controller.KeptExactly` | `native/server/lifecycle.cpp:152-172` | exactly the channels that could not be closed stay, as often as they were there |
| `Controller.TasksCounted` | `native/server/lifecycle.cpp:330-350` | the tasks on A's main thread are counted exactly: one more when it is blocked, one fewer when one leaves |
| `Controller.LetGoExactly` | `native/server/lifecycle.cpp:139-253` | in every run a listener, an announcement or event loops that are there are let go exactly by a stop that could close all of them and every accepted channel and found no task left |
| `Controller.TasksLeave` | `native/server/transport.cpp:190-198` | in every run, while a stop is under way, each task that waits on A's main thread leaves at its next look |
| `Lifecycle.Server.CloseChildren` | `native/server/lifecycle.cpp:152-172` | exactly the channels whose close fails stay, in order; each other weak reference is deleted once |
| `Lifecycle.Server.CloseParts` | `native/server/lifecycle.cpp:139-211` | asks for the stop, closes the accepted channels and says whether every part could be closed; it lets no part go |
| `Lifecycle.Server.StopBServer` | `native/server/lifecycle.cpp:139-253` | it succeeds if and only if listener, announcement and event loops could be closed if there, every accepted channel was closed and no task is left; on failure all parts, channel, target and buffer are as before, on success everything is released; it is the stop of the model |
| `Lifecycle.RetriesCompose` | `native/server/lifecycle.cpp:154-171` | two attempts leave the channels that both could not close |
| `BypassMarks.NeverLong` | `native/relay_handler.cpp:209-222` | the list never exceeds 257 marks |
| `BypassMarks.MarkSurvives` | `native/relay_handler.cpp:37-47` | a marked packet is recognised through 256 later marks, whatever else is consumed |
| `BypassMarks.MarkDisplaced` | `native/relay_handler.cpp:217-220` | 257 later marks displace it |
| `BypassMarks.FilterPassesMarked` | `native/relay_handler.cpp:90-101` | the write filter passes a marked packet in that window, whatever it is |
| `BypassMarks.OneSender` | `native/relay_handler.cpp:90-101` | of unmarked packets it passes, while B is active, exactly those that B may not send |
| `PacketPolicy.BSendsTheRest` | `native/packet_policy.h:9-25` | by literal names: B may send every packet of the game protocol but A's heartbeat and mod handshake, and nothing else |
| `BypassMarks.RelayHandler.MarkBypass` | `native/relay_handler.cpp:209-222` | is the marking step; each displaced reference is deleted once |
| `BypassMarks.RelayHandler.ConsumeBypassMark` | `native/relay_handler.cpp:37-47` | removes the first mark of the packet and deletes its reference; true exactly when there was one |
| `BypassMarks.RelayHandler.Write` | `native/relay_handler.cpp:90-101` | allows exactly marked packets and those the policy allows |
| `BypassMarks.RelayHandler.DetachAll` | `native/relay_handler.cpp:331-381` | exactly the pipelines that could not be cleaned stay; all marks are dropped, each reference once |
| `StatusLine.DisplayLine` | `native/status_response.cpp:5-23` | the loop writes the line made of the shown characters that fit |
| `StatusLine.FitIsLongest` | `native/status_response.cpp:16-20` | everything is kept if it fits, and otherwise the longest part that does, with an ellipsis |
| `StatusLine.WidthBounded` | `native/status_response.cpp:5-23` | the line is within the width if and only if the width holds an ellipsis or nothing is to be shown |
| `StatusLine.TooNarrow` | `native/status_response.cpp:5-23` | a concrete line wider than asked for |
| `StatusLine.ShownIsClean` | `native/status_response.cpp:10-14` | no section sign, control character or lone surrogate is left |
| `StatusLine.Replaced` | `native/status_response.cpp:8-14` | a section sign disappears with the unit behind it, a control character becomes a space and a lone surrogate disappears |
| `StatusLine.CleanFits` | `native/status_response.cpp:5-23` | a clean line that fits is shown as it is |
| `StatusLine.WidthIs` | `native/status_response.cpp:15-20` | a clean line takes 4 for a space, 6 for another ASCII character and 9 for any other, a pair being one |
| `StatusLine.CleanLines` | `native/status_response.cpp:26-35` | a clean name, or the address without one, is the first line and a clean address the second; without them the literal texts |
| `StatusLine.FixedPoint` | `native/status_response.cpp:5-23` | formatting twice is formatting once |
| `StatusLine.FormatServerMotd` | `native/status_response.cpp:26-35` | the entry is built from the two lines and has exactly one line feed |
| `StatusLine.TwoLines` | `native/status_response.cpp:26-35` | both lines fit their widths and there is exactly one line feed, for every name and address |

## Left out

- ClassEdit.ClassFileEditor.Parse: inputs on which the source reads outside its buffer are excluded; so are, in the rebuilding methods, method attributes that do not lie inside their bytes (an attribute table shorter than its count included).
- StackMapTable.ShiftStackMap: a table that claims frames but ends before its first offset is excluded, because the source reads past it.
- EditRuns.EditsSurviveReparse: strings longer than 0xFFFF and pools beyond 0xFFFF slots are excluded, because the editor truncates both silently; the class's own name must lie in the parsed pool.
- ClassEdit.ClassFileEditor.AddUtf8: a search that does not end, because its two-byte index wraps in a pool of more than 0xFFFF slots that does not hold what is searched, is excluded; so for the other additions.
- Machine.PrependKeepsMeaning: the meaning of single instructions is a parameter, except where control goes; `jsr` and `ret` push or take absolute addresses and are not covered.
- ClassBuilding.ClassBuilder.AddEntry: after a refusal the source's object is in no promised state, and nothing is proved about using it further.
- ProxyServers.ProxyServer.ForwardToB: null packets and null sub-packets are skipped by the source and do not occur.
- ProxyServers.ProxyServer.ForwardBundleExpanded: the bindings of the bundle class are taken to be resolved; without them the source writes a bundle as one packet.
- ProxyServers.ProxyServer.ChannelInactive: outside a mid-session login the source also closes A's connection, which is no part of the object here.
- ProxyServers.ProxyServer.Release: the references to the listener, the target and the identities are fields of `Lifecycle.Server`, not of this object.
- RelayReads.Relay.ChannelRead: what A's game does with packets outside the game protocol is not followed.
- ProxyServers.ProxyServer.WriteClientPacket: which leaves are skipped or rejected is an input; the team filter that decides it for roster packets is modelled on its own.
- ProxyServers.ProxyServer.PacketFromB: status and ping requests change nothing and are left out; routing to a target connection that is already gone is counted as routed.
- Controller.RequestStays: the controller's own loop never ends and interleaves with other threads, so it is a step system and not a method; its parts that stop a session are methods.
- Controller.LateCapture: the ten tries of the source are not counted, so any number of them is allowed.
- BypassMarks.RelayHandler.DetachAll: attaching the relay to a pipeline is not modelled; a pipeline whose weak reference cannot be made is not on the list the source detaches.
- Clocks: deadlines, retry times and timeouts are inputs or nondeterministic outcomes.
- JVM lookups, local frames and exceptions: each call that may fail is an input that says whether it does.
- Packet construction and the world capture itself: the snapshot is a sequence of packets.
- The copied player-info packets and B's own player-info packet.
- Socket binding, the LAN announcement, the status response object, logging, class names, process injection.
- The early returns of the login before its first dispatch section change nothing that is modelled; such a login is one that does not happen.
- Waking of waiting threads: that a waiter is eventually notified is not proved.
