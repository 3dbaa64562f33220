# irccmd in Dafny

irccmd is a command-line IRC client. It connects to one server, joins a list
of channels, prints what is said in them and sends what it reads on stdin:
either lines typed at a readline prompt (with slash commands such as
`/join`, `/leave`, `/channel`, `/list`, `/help` and `/exit`) or lines piped
in. This project models the bookkeeping of the `src/` revision of the
client:

- **`cstrings.dfy` (`CStrings`).** The C string vocabulary the code is written in: `strchr`, `strncpy`, `strncmp`, `isspace`, trimming, the hex digit of `%X`, and a generic "first index from here on" search. Every loop in the client that hunts for something has that search's shape.
- **`options.dfy` (`Options`).** The global `options` record as a class.
  - The channel registry is two arrays of `MAX_CHANNELS` (20) slots, the number of slots in use and the active index.
  - It also holds the session flags, the bot name and its collision counter.
  - `Registry` is the registry part as a value. The handlers are proved against functions on it.
- **`ircmod.dfy` (`IrcMod`).** The adapter to the IRC library. The library session is a class recording the requests made of it. Library return codes are parameters.
  - The nickname-collision handler for numeric reply 433 (ERR_NICKNAMEINUSE, section 6.1 of RFC 1459).
  - The one-time callback table.
- **`commands.dfy` (`Commands`).** The slash-command table and its handlers. Removal is swap-with-last, and every handler keeps `1 <= no_channels <= MAX_CHANNELS` and `0 <= current < no_channels`.
- **`input.dfy` (`Input`).**
  - `ltrim`; splitting and dispatching a command line; the required-argument check.
  - The message router of `src/input.c`: prefix lookup of a `#chan` token with fallback to the active channel.
  - The bounded line reader `sgets` and end-of-input handling.
  - The interactive-mode test and the prompt.
- **`completion.dfy` (`Completion`).** Tab completion: which generator a word gets, and the two generators, which share one position across calls.
- **`mainloop.dfy` (`IrcMain`).** The parts of `src/main.c` outside the `select` loop:
  - its own, older router: the first `#` anywhere starts the token, channels match by exact name, and a miss falls back to slot 0;
  - the display format of channel text;
  - the connect, join and signal callbacks;
  - the stdin-watch rule;
  - the verbosity normalisation.
- **`arguments.dfy` (`Arguments`).** The two command-line passes.
  - What argtable found is an input.
  - The first pass covers the help/version/error precedence.
  - The second pass is the override mapping: mode by prefix, bot name truncation and `-C name:password` values.

Strings are NUL-free `seq<char>` values. Where the C code cuts a buffer in
place (writing `'\0'` at a space or a `:`), the model computes the pieces as
values.

## Model

| member | source | states |
|---|---|---|
| CStrings.Take | src/commands.c:126 | strncpy into an n-character buffer keeps a prefix of the source of length min(len, n) |
| CStrings.Find | src/input.c:151-154 | strchr: the index of the first occurrence of the character, and None exactly when it does not occur |
| CStrings.StrnEq | src/commands.c:105 | strncmp(a, b, n) == 0: equal strings match, and strings shorter than n match exactly when equal |
| CStrings.HasPrefix | src/input.c:305 | strncmp over the token's length: the token is a prefix, the string being the token followed by the rest |
| CStrings.FindIsFirstOccurrence | src/input.c:154 | any index holding the character with no earlier occurrence is what strchr answers |
| CStrings.FirstFrom | src/commands.c:103-110 | the search loop: a hit is at or after the start, satisfies the test and has no hit before it; no hit means none from the start on |
| CStrings.FirstFromFindsFirstHit | src/commands.c:103-110 | a hit at k with none between the start and k is exactly what the search returns |
| CStrings.TrimLeft | src/input.c:32-33 | skipping leading whitespace keeps a suffix that starts with a non-space, and drops only whitespace |
| CStrings.Trim | src/input.c:26-39 | ltrim's result is no longer than the input and neither of its ends is whitespace |
| CStrings.TrimRight | src/input.c:34 | cutting trailing whitespace keeps a prefix that ends in a non-space, and drops only whitespace |
| CStrings.TrimmedEndsAreNotSpace | src/input.c:26-39 | neither end of a trimmed string is whitespace |
| CStrings.TrimKeepsAPiece | src/input.c:26-39 | what ltrim keeps is a contiguous piece of the input with only whitespace outside it |
| CStrings.TrimLeftFrom | src/input.c:32-33 | the leading whitespace up to the first other character is exactly what the left trim drops |
| CStrings.TrimRightTo | src/input.c:34 | the trailing whitespace after the last other character is exactly what the right trim drops |
| CStrings.TrimKeepsThePiece | src/input.c:32-34 | the piece from the first to the last non-space character is what trimming keeps |
| CStrings.TrimIdempotent | src/input.c:26-39 | trimming twice is trimming once |
| CStrings.HexDigit | src/ircmod.c:50 | the digit %X prints for a value below 16 is 0-9 or A-F |
| CStrings.HexDigitInjective | src/ircmod.c:50 | different counter values print as different digits |
| Options.ModeBits | src/main.h:26-32 | the input bit is set exactly for input and both, the output bit exactly for output and both |
| Options.PromptText | src/input.c:131-132 | the prompt is the bot name, '@', the active channel and ": ", so its length is the two names plus 3 |
| Options.Options.constructor | src/main.c:23-44 | the static initialiser: one channel "#spam" with an empty password, active slot 0, mode both, port 6667, server irc.incas3.nl, bot "omega" with counter 1; all flags off |
| IrcMod.IrcSession.JoinChannel | src/ircmod.c:89-100 | join_irc_channel hands the join to the library and answers true exactly when the library returned 0 |
| IrcMod.IrcSession.PartChannel | src/ircmod.c:102-113 | part_irc_channel hands the part to the library and answers true exactly when the library returned 0 |
| IrcMod.IrcSession.SendRawMsg | src/ircmod.c:161-173 | connected: the message is sent and 0 returned whatever the library answers; not connected: nothing is sent and 1 is returned |
| IrcMod.IrcSession.Reconnect | src/ircmod.c:115-128 | create_irc_session asks for a connection under the given nick and reports whether the library is connected |
| IrcMod.OnNickInUse | src/ircmod.c:23-57 | one 433 reply: with counter 0, "_" and then "X" are appended; with a retry, the last character becomes the hex digit of the counter, the counter goes up by one, the length is kept and a reconnect follows; at 0xF the client stops with name and counter unchanged, and at counter 0 a name longer than 7 stops it too |
| IrcMod.RetryDefined | src/ircmod.c:49 | the write to the last character of the name has a character to write when a retry happens; a stopped client or a non-empty name always qualifies |
| IrcMod.Collide | src/ircmod.c:19-58 | after any number of consecutive 433 replies the handler's write stays inside the name |
| IrcMod.CounterCountsCollisions | src/ircmod.c:47-55 | while the client keeps running, the counter has gone up once per reply |
| IrcMod.CollisionsTerminate | src/ircmod.c:47-55 | retrying ends: after 16 - nr replies the client has stopped, whatever the name |
| IrcMod.RetriedNameEndsInDigit | src/ircmod.c:49-50 | after a retry the name ends in the hex digit of the counter value it used |
| IrcMod.NameChangesOnEveryRetry | src/ircmod.c:49-50 | every retry after the first proposes a name different from the one before |
| IrcMod.FirstCollisionOfOmega | src/ircmod.c:27-50 | with the counter at 0, "omega" becomes "omega_0" and the counter 1 |
| IrcMod.OmegaRetries | src/ircmod.c:45-53 | from the initial counter 1, the k-th reply renames "omega" to "omeg" followed by the hex digit of k |
| IrcMod.OmegaGivesUpOnFifteenth | src/ircmod.c:47-55 | from the initial counter 1, the client is still running after 14 replies and stops on the 15th with "omegE" |
| IrcMod.NumericEvent | src/ircmod.c:19-58 | replies other than 433 change nothing; 433 rewrites name, counter and running as OnNickInUse says and requests a new session only on a retry |
| IrcMod.DefaultCallbacks | src/ircmod.c:64-82 | every event slot the client fills holds the general logger, except numeric replies, which get the collision handler |
| IrcMod.EveryKindListed | src/ircmod.c:66-82 | the table get_callback builds covers every event kind with its default handler |
| IrcMod.Callbacks.constructor | src/ircmod.c:8-9 | the table starts empty and not initialised |
| IrcMod.Callbacks.GetCallback | src/ircmod.c:60-87 | the table is filled on the first call only; later calls leave it, overrides included, as it was |
| IrcMod.Callbacks.InstallMainHandlers | src/main.c:233-237 | prog_main overrides connect, channel and join on the one table and leaves the other slots alone |
| IrcMod.OverridesSurviveLaterLookups | src/ircmod.c:60-85 | a get_callback after prog_main's overrides keeps the connect, channel and join handlers and the numeric default |
| Commands.HandlersWithArgumentRequireIt | src/commands.c:22-31 | the entries whose handlers read their argument (/join, /channel) are marked as requiring one |
| Commands.CommandNamesDistinct | src/commands.c:22-31 | no two entries of the command table share a name |
| Commands.ComHelp | src/commands.c:34-47 | unless silent: a header naming the program and an empty line, then one "name\t\tdoc" line per table entry in table order, then an empty line; nothing when silent; answers true |
| Commands.ComExit | src/commands.c:49-53 | clears running and nothing else; answers true |
| Commands.ComList | src/commands.c:55-66 | unless silent: the names of the slots in use in slot order, then an empty line; nothing when silent; answers true |
| Commands.FindChannel | src/commands.c:103-110 | the first slot in use whose name matches over MAX_CHANNELS_NAMELEN; None exactly when no slot matches |
| Commands.AfterChannel | src/commands.c:68-84 | /channel changes only the active index: to the first matching slot, and with no match nothing changes |
| Commands.ComChannel | src/commands.c:68-84 | com_channel changes the registry as AfterChannel says and answers true |
| Commands.SplitJoinArgument | src/commands.c:93-100 | the channel is the text before the first space, the password the text after it, empty without a space |
| Commands.AfterJoin | src/commands.c:86-146 | the registry stays valid after /join; a full registry changes nothing; a refused join keeps the count, the active slot and the names in use; an accepted change adds one slot and makes it active; any change writes the name cut to 20 characters and the password into the first free slot, and every other slot, in use or not, keeps its name and password |
| Commands.JoinRequests | src/commands.c:114-135 | /join asks the library for at most one join, and asks exactly when the registry would change |
| Commands.ComJoin | src/commands.c:86-146 | com_join changes the registry as AfterJoin says, issues JoinRequests and answers true |
| Commands.JoinAddsDistinctChannel | src/commands.c:125-143 | an accepted join appends the new name at the old count, makes it active, keeps the earlier slots and keeps the names distinct |
| Commands.JoinIntoFullRegistryChangesNothing | src/commands.c:112-122 | with all 20 slots in use /join changes nothing and asks nothing of the library |
| Commands.NewChannelIsJoined | src/commands.c:102-143 | with a free slot and an accepting library, a name no slot in use matches is appended under its stored name and made active, and one join is requested, whatever the other names are |
| Commands.RefusedJoinKeepsCountAndActive | src/commands.c:125-135 | a join the library refuses keeps the count, the active slot and the names in use; only the first free slot may change |
| Commands.JoinOfKnownChannelChangesNothing | src/commands.c:102-110 | joining a channel already in use changes nothing and asks nothing of the library, whatever it would answer |
| Commands.JoinKeepsChannelsDistinct | src/commands.c:102-143 | adding a name no slot matches keeps the slots in use pairwise distinct |
| Commands.LeaveTarget | src/commands.c:152-168 | /leave removes the first slot matching a non-empty argument, else the active slot |
| Commands.SwapRemove | src/commands.c:183-207 | removal moves the last element into the removed slot and keeps every other slot in place |
| Commands.SwapRemoveDropsOne | src/commands.c:183-207 | swap-removal takes exactly the removed element out of the multiset of slots |
| Commands.SwapRemoveKeepsDistinct | src/commands.c:183-207 | swap-removal keeps the remaining names distinct, and none of them matches the removed one |
| Commands.ClearedSlotsAreSwapRemoval | src/commands.c:183-207 | overwriting the target with the last slot and clearing the last slot is a swap-removal of the slots in use |
| Commands.RemovedAt | src/commands.c:182-210 | the registry with slot t removed is valid, one shorter, has slot 0 active and holds the swap-removal of the names; slot t takes the last password cut to 20 characters, the last slot's name and password are cleared, and every other slot, in use or not, is unchanged |
| Commands.AfterLeave | src/commands.c:148-214 | /leave with one channel in use changes nothing; otherwise the count drops by one, slot 0 becomes active, the target is swap-removed, it takes the last password cut to 20 characters, the last slot is cleared and every other slot is unchanged |
| Commands.LeaveRequests | src/commands.c:170-179 | /leave parts the target channel, and asks nothing when it is the last one |
| Commands.LeaveRemovesParted | src/commands.c:178-207 | leaving keeps the names distinct and takes exactly the parted channel out of them |
| Commands.RemoveSlot | src/commands.c:182-210 | the copy-and-clear part of com_leave removes the slot as RemovedAt says |
| Commands.SelectLeaveTarget | src/commands.c:152-168 | a non-empty argument naming a slot in use makes that slot active; nothing else changes |
| Commands.ComLeave | src/commands.c:148-214 | com_leave changes the registry as AfterLeave says, issues LeaveRequests and answers true |
| Input.LTrim | src/input.c:26-39 | ltrim yields the input with leading and trailing whitespace removed |
| Input.SplitCommand | src/input.c:150-160 | the command is the text before the first space and contains none; the argument is absent exactly when the line has no space |
| Input.ParseCommandLine | src/input.c:150-160 | the in-place split agrees with SplitCommand: the command before the first space, and the rest trimmed by ltrim |
| Input.LookupCommand | src/input.c:165-173 | the first table entry whose name equals the command; None exactly when no entry has that name |
| Input.ValidArgument | src/input.c:321-333 | a command that needs no argument always passes; one that needs it passes exactly with a non-empty argument |
| Input.Dispatch | src/input.c:139-202 | a line is a chat message exactly when it does not start with '/' |
| Input.DispatchFollowsTable | src/input.c:165-199 | a command that runs is a table entry with the line's command name and an acceptable argument; a command not found names no entry |
| Input.SplitAtFirstSpace | src/input.c:153-160 | a command followed by a space splits into that command and the trimmed rest |
| Input.DispatchWithArgument | src/input.c:153-181 | a line naming entry i, then a space, runs that entry on the trimmed rest, unless the entry needs an argument and the rest is blank |
| Input.DispatchJoinLine | src/input.c:141-181 | "/join rest" runs com_join on the trimmed rest, and is refused for a blank rest |
| Input.DispatchWithoutArgument | src/input.c:166-181 | a line that is only the name of entry i runs it without an argument, or is refused when the entry needs one |
| Input.DispatchBareLeave | src/input.c:166-181 | a bare "/leave" runs com_leave without an argument |
| Input.FindsTableEntry | src/input.c:166-173 | the lookup finds a name at the entry that carries it |
| Input.PrefixLookup | src/input.c:300-317 | get_channel's answer: the first slot in use that has the token as a prefix, else the active slot |
| Input.GetChannel | src/input.c:300-317 | the while loop of get_channel answers PrefixLookup |
| Input.SplitMessage | src/input.c:219-232 | a message starting with '#' splits into a space-free token and the text after the first space, and fails without a space; any other message is its own token and text |
| Input.SplitTrimmed | src/input.c:219-232 | the in-place split agrees with SplitMessage |
| Input.RouteMessage | src/input.c:205-271 | not connected: forgotten; a '#' token without a space: parse failure; a delivery carries a non-empty tail of the trimmed message to a slot's name cut to MAX_CHANNELS_NAMELEN |
| Input.AddressedMessageGoesToNamedChannel | src/input.c:217-248 | "#chan text" goes to the first slot in use that "#chan" is a prefix of, with the text after the space |
| Input.AddressedUnknownChannelGoesToActive | src/input.c:300-313 | "#chan text" where no slot in use has "#chan" as a prefix goes to the active channel |
| Input.PlainMessageGoesToActiveChannel | src/input.c:234-248 | a message not starting with '#' that is a prefix of no slot name goes whole to the active channel |
| Input.PlainPrefixMessageGoesToMatchingChannel | src/input.c:234-248 | a message not starting with '#' that is a prefix of a slot name goes whole to the first such slot, not the active one |
| Input.BlankMessageSendsNothing | src/input.c:242-255 | a blank message sends nothing and does not stop the client |
| Input.SendIrcMessage | src/input.c:205-271 | a parse failure clears running; a delivery is handed to the library; the registry never changes |
| Input.LineOf | src/input.c:282-298 | one sgets call stores a prefix of the stream of at most size-1 characters with no newline or EOF byte in it |
| Input.LineStopsAtTerminator | src/input.c:285-292 | the stored line stops at size-1 characters, at the end of the stream, or before a newline or EOF byte |
| Input.RestOf | src/input.c:285-292 | what one sgets call leaves unread is the suffix of the stream after the stored line and, when one was read, its terminator |
| Input.BlankLineReadsLikeEndOfStream | src/input.c:95-112 | a blank line in the pipe stores nothing, exactly like the end of the stream |
| Input.Sgets | src/input.c:282-298 | the read loop stores LineOf and leaves RestOf unread |
| Input.LineUpTo | src/input.c:285-295 | characters that end nothing, up to a stopping point, are exactly the stored line |
| Input.UpToNul | src/input.c:94-95 | the C string a buffer holds is its prefix before the first NUL |
| Input.AfterCommand | src/input.c:175-181 | the registry stays valid after any command |
| Input.CommandRequests | src/input.c:175-181 | a command asks the library for at most one request, and only /join and /leave ask at all |
| Input.OnlyRegistryCommandsChangeIt | src/commands.c:34-66 | /help, /exit, /list, an unknown command and a refused one leave the registry alone and ask nothing of the library |
| Input.RunCommand | src/input.c:178-185 | the handler runs; registry and requests change as AfterCommand and CommandRequests say; only /exit clears running, since every handler answers true |
| Input.DecideCommand | src/input.c:141-178 | the split, lookup and argument check decide Dispatch; a handler that reads its argument gets a non-empty one |
| Input.ProcessCommand | src/input.c:139-203 | a chat line is routed and never touches the registry; a command changes registry, running and requests as CommandEffect says |
| Input.ReadPipe | src/input.c:89-121 | as PipeEffect says: a zero-length read switches to output-only mode with keepreading and stops the client otherwise; a line read while running is routed by RouteMessage; the registry is untouched |
| Input.ProcessInput | src/input.c:83-122 | interactive: a completed line goes to process_command; connected pipe: one line is read, with the mode, running and requests as PipeEffect says; otherwise nothing changes |
| Input.ModeTestIsDeadAsWritten | src/input.c:45 | as written the mode test never fires: an output-only client on a terminal stays interactive |
| Input.StaysInteractiveAsWritten | src/input.c:45 | as written, interactive mode survives exactly for an interactive client on a terminal, whatever the mode |
| Input.StaysInteractive | src/input.c:45 | corrected: interactive mode survives exactly for an interactive client on a terminal in input or both mode |
| Input.InteractiveNeedsInputMode | src/input.c:45-49 | with the intended test, interactive mode survives exactly for a terminal and the input or both mode |
| Input.InitReadline | src/input.c:41-71 | interactive mode survives as StaysInteractive says, and then shows channel and nick and sets the mode to output; otherwise those fields stay |
| Input.PromptOverrunsAsWritten | src/input.c:131-132 | the allocation as written holds the prompt's characters but not the terminator sprintf writes |
| Input.PromptAllocationAsWritten | src/input.c:131 | as written, the allocation equals the prompt's length, leaving no byte for the terminator |
| Input.PromptAllocation | src/input.c:131 | the corrected allocation is the prompt's length plus its terminator |
| Input.ChangePrompt | src/input.c:124-137 | in interactive mode, and only then, the buffer receives the prompt for the bot name and the active channel |
| Completion.CompletionFor | src/input.c:374-393 | a word starting with '/' completes commands; otherwise a word containing '#' completes channels; otherwise nothing |
| Completion.CommandNames | src/commands.c:22-31 | the names of the table entries, in table order |
| Completion.Completer.constructor | src/input.c:16 | completion_index starts at 0 |
| Completion.Completer.CommandGenerator | src/input.c:345-357 | state 0 restarts; each call answers the next table name from the index on with the text as a prefix and leaves the index just past it; with no match the index ends past the terminating entry |
| Completion.Completer.ChannelGenerator | src/input.c:359-372 | like CommandGenerator, over all MAX_CHANNELS slots, including those not in use |
| IrcMain.AddressOf | src/main.c:173-183 | no '#' means unaddressed; an addressed line's token starts with '#' and has no space |
| IrcMain.SplitToken | src/main.c:176-182 | the token ends at the first space, and the text is what follows; without a space the token is unterminated |
| IrcMain.Lead | src/main.c:173 | the text before the first '#', which the router drops |
| IrcMain.AddressOfSplitsLine | src/main.c:173-183 | lead, token, space and text put an addressed line back together |
| IrcMain.UnterminatedLineEndsInToken | src/main.c:176-185 | an unterminated line has no space from its first '#' on |
| IrcMain.HashStartsAt | src/main.c:173 | after a '#'-free lead, the first '#' is the one that follows the lead |
| IrcMain.SpaceEndsToken | src/main.c:176-181 | after a space-free token, the first space is the one that follows the token |
| IrcMain.LeadIsDropped | src/main.c:173 | what precedes the first '#' does not change how a line is addressed |
| IrcMain.AddressOfComposed | src/main.c:173-183 | a line built from a '#'-free lead, a token and a text splits back into that token and that text |
| IrcMain.RouteLine | src/main.c:161-217 | no line: nothing; no '#': the whole line goes to slot 0; a '#' token without a space sends nothing; otherwise the text goes to the first slot named exactly like the token, or slot 0 when none is |
| IrcMain.AddressedLineGoesToNamedSlot | src/main.c:173-211 | "lead#chan text" goes to the first slot named #chan; the lead is dropped |
| IrcMain.UnknownChannelFallsBackToFirstSlot | src/main.c:195-204 | a token naming no slot falls back to slot 0, and the text is still sent |
| IrcMain.Deliveries | src/main.c:207-211 | a routed text becomes one message request exactly when the session is connected |
| IrcMain.ExactChannel | src/main.c:190-205 | the while loop answers the first slot in use named exactly like the token, or 0 |
| IrcMain.ChannelSearchAgrees | src/main.c:195-204 | where the loop stops is where the search specification says |
| IrcMain.SendIrcMessage | src/main.c:161-217 | answers true exactly when there is a line, and hands the routed text to the library |
| IrcMain.ReadStdinLine | src/main.c:288-310 | a non-empty line read while running is routed and sent, and running stays as it was |
| IrcMain.SigFunc | src/main.c:50-54 | SIGINT and SIGHUP clear running |
| IrcMain.ModeCallback | src/main.c:92-96 | the join callback sets connected |
| IrcMain.JoinsOf | src/main.c:74-79 | one join request per channel with its password, in slot order |
| IrcMain.ServerConnect | src/main.c:66-80 | the connect callback logs in at userserv, then requests joins of the channels in use from slot 0 up |
| IrcMain.ChannelDisplay | src/main.c:108-132 | channel text is shown exactly in a mode with the output bit, with at least two parameters and when not silent, as "chan - ", "nick: " (each on request) and the text |
| IrcMain.DisplayEndsWithText | src/main.c:116-128 | the displayed line ends with the text and one newline |
| IrcMain.WatchStdin | src/main.c:262-270 | stdin is watched exactly in the input or both mode once connected |
| IrcMain.Normalise | src/main.c:376-395 | silent wins and clears verbose and debug; otherwise debug implies verbose and the flags are kept |
| IrcMain.NormaliseIdempotent | src/main.c:376-395 | normalising twice is normalising once, and a consistent setting is left alone |
| IrcMain.ModeName | src/main.c:411-412 | each mode prints as its own name |
| Arguments.PrimaryVerdict | src/arguments.c:101-188 | the client goes on exactly when nothing failed and neither --help nor --version was given; code 1 for a failed allocation or a parse error without help or version |
| Arguments.HelpTakesPrecedence | src/arguments.c:112-124 | --help wins over a parse error: the client stops with code 0 |
| Arguments.ParsePrimary | src/arguments.c:101-188 | running and the code follow PrimaryVerdict; the verbosity flags and the config file are taken while running, debug implying verbose |
| Arguments.ParseMode | src/arguments.c:220-245 | "in…" gives input, "out…" output and "both…" both, with code 0; anything else gives both with code 1; never none |
| Arguments.DiffersAtFirst | src/arguments.c:225-239 | two prefixes differing in their first character cannot both match |
| Arguments.ModeNamesReadBack | src/arguments.c:225-244 | the names of input, output and both read back as those modes; "none" reads as both with code 1 |
| Arguments.TruncateBotname | src/arguments.c:279-280 | the bot name is a prefix of the value, at most MAX_BOT_NAMELEN - 1 characters long, and a short value is kept whole |
| Arguments.ChannelValueAsWritten | src/arguments.c:294-300 | as written: the name is the value cut at its first ':' and the password, when there is one, is always empty |
| Arguments.ChannelValue | src/arguments.c:294-300 | corrected: a value with a ':' is its name, ':' and its password; the name is as written |
| Arguments.ChannelValueRoundTrip | src/arguments.c:67-70 | "name:password" with a short name reads back as that name and that password |
| Arguments.ChannelPasswordLostAsWritten | src/arguments.c:299-300 | as written, "name:password" stores the name with an empty password |
| Arguments.NamesAfter | src/arguments.c:290-304 | slot i takes the name of value i; slots beyond the values keep theirs |
| Arguments.PasswordsAfter | src/arguments.c:290-304 | slot i takes the password of value i when it has one; other slots keep theirs |
| Arguments.ChannelStep | src/arguments.c:291-304 | one more value extends the names and passwords by exactly its slot |
| Arguments.ServerPasswordAsWritten | src/arguments.c:266-273 | as written, the server password is the --server value, or argtable's empty default |
| Arguments.ServerPasswordIsServerAsWritten | src/arguments.c:270 | as written, "-S host -P secret" stores the host, not the given secret, as the password |
| Arguments.OverrideVerbosity | src/arguments.c:195-218 | -s, -v and -d each set their flag while running; debug implies verbose |
| Arguments.OverrideServer | src/arguments.c:220-283 | mode, port, server, server password and bot name each take their value while running, and keep theirs otherwise; the server password is the --serverpassword value (corrected) |
| Arguments.SetChannels | src/arguments.c:285-307 | the count becomes the number of values, the slots take NamesAfter and PasswordsAfter, and the registry stays valid with the active slot still 0 |
| Arguments.OverrideDisplay | src/arguments.c:309-370 | the display flags, noninteractive, keepreading, timeout and lines each apply while running, and fields not given keep their values |
| Arguments.ParseSecondary | src/arguments.c:191-375 | the pass answers 1 exactly for a --mode value that names no mode; given -C values replace count, names and passwords; the registry is valid afterwards |

## Left out

- The `select` loop of `prog_main` (`src/main.c:224-319`), `usleep` and signal installation are not modelled. One read of stdin (`IrcMain.ReadStdinLine`) and the stdin-watch rule are.
- The main() startup sequence and its exit codes are not modelled, apart from the verbosity normalisation.
- The IRC library is not modelled. Its calls are a log of requests, with return codes and connection state as parameters. Descriptor handling, session teardown and `irc_general_event` (logging only) are left out.
- readline is not modelled. Key binding, `add_history` and the `rl_completion_matches` driver that calls the generators are left out; so is `deinit_readline`.
- The Lua configuration file reader (`src/config.c`) is not part of this model. Neither is the construction and printing of the argtable table.
- The root-level files are a superseded revision and are not part of this model.
- The client has no liveness watchdog or reconnect timer. The connection timeout is only stored.
- Log, warning and debug output is not modelled. The exceptions are the channel display format and the `/help` and `/list` lines.
- `PROG_STRING` stands for the package name the build configuration defines, which is not part of this model. Commands.PROG_STRING takes it as "irccmd".
- Several byte-level buffer defects are modelled as the evidently intended string operations:
  - the `sprintf` calls that read and write the same buffer (`src/ircmod.c:31`, `36`, `50`);
  - `ltrim` reading `s[-1]` on a blank string (`src/input.c:34`);
  - `strncpy` leaving a full 20-character name unterminated.
- `IrcMod.OnNickInUse` models the name as a value. When the counter is 0, appending "X" to a 7-character name writes past the 8-byte buffer; the model just appends. `IrcMod.RetryDefined` excludes the one case in which the handler would write before the buffer: running, a counter between 1 and 14, and an empty name.
- `def.h` is not part of this model, so two things follow:
  - The truncation of passwords (`MAX_PASSWD_LEN`) and of the server name (`MAX_SERVER_NAMELEN`) is not modelled. Those values are stored whole.
  - The `nsilent` output macro is taken from `src/main.h` as "print unless silent".
- `src/main.h` is stale: it lacks `current_channel_id`, `interactive` and `keepreading`. The model uses the fields as the `.c` files use them.
- Input.Sgets treats the byte 0xFF as end of file, as a signed `char` compared with `EOF` does. Read errors are not modelled: the source stores a NUL byte for a failed read() and keeps reading.
- The prompt readline shows is not held as state. Input.ChangePrompt computes it from the options, so the model cannot show that the prompt keeps the old bot name after a 433 retry until the next /channel, /join or /leave refreshes it.
- The channel callback's `irc_target_get_nick` is not modelled. The nick is a parameter of `IrcMain.ChannelDisplay`.
- Commands.RemovedAt copies the last channel's name whole, not through a `MAX_CHANNELS_NAMELEN` strncpy. That is the same thing for names that fit their slot, which every name stored by `/join` and `-C` does.
- ParseSecondary: its own ensures states only the exit code, the channel slots and the registry's validity. The per-field promises are the ensures of OverrideVerbosity, OverrideServer, SetChannels and OverrideDisplay, which it calls in the source's order.
- Input.Dispatch: its own ensures states only the chat/command split. What the command decision means is in DispatchFollowsTable, DispatchWithArgument and DispatchWithoutArgument.

## Findings

| source | as written | input that shows it | evidently intended | confidence | as-written member | corrected member |
|---|---|---|---|---|---|---|
| src/arguments.c:270 | the server password is copied from the `--server` value | `-S host -P secret` stores "host" as the server password | copy the `--serverpassword` value | not executed | Arguments.ServerPasswordAsWritten, Arguments.ServerPasswordIsServerAsWritten | Arguments.OverrideServer |
| src/arguments.c:299-300 | the password copy starts at the ':' just overwritten with NUL, so it is always empty | `-C #chan:pw` stores "#chan" with password "" | the password is the text after the ':' | not executed | Arguments.ChannelValueAsWritten, Arguments.ChannelPasswordLostAsWritten | Arguments.ChannelValue, Arguments.ChannelValueRoundTrip (used by Arguments.SetChannels) |
| src/input.c:45 | the test ORs the mode with the input bit and compares the result with 0, which never holds, so the mode plays no part | mode output on a terminal keeps interactive mode | turn interactive mode off when the mode lacks the input bit | not executed | Input.StaysInteractiveAsWritten, Input.ModeTestIsDeadAsWritten | Input.StaysInteractive, Input.InteractiveNeedsInputMode (used by Input.InitReadline) |
| src/input.c:131 | the prompt buffer has the two names' lengths plus 3 bytes | bot "omega" on "#spam": 13 characters and a terminator in 13 bytes | plus 4, counting the terminator | not executed | Input.PromptAllocationAsWritten, Input.PromptOverrunsAsWritten | Input.PromptAllocation (used by Input.ChangePrompt) |
