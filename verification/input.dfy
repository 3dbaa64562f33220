/**
 * The input side of the client: interactive command lines from readline,
 * lines read from a pipe on stdin, how a line becomes a chat message for
 * a channel, and tab completion of command and channel names.
 */
module Input {
  import opened CStrings
  import opened Options
  import opened Commands
  import IrcMod

  /**
   * ltrim: skips leading whitespace, moves the rest to the front, then cuts
   * trailing whitespace off; the kept piece is s[start..end].
   */
  method LTrim(s: string) returns (r: string)
    ensures r == Trim(s)
  {
    var start := 0;
    while start < |s| && IsSpace(s[start])
      invariant 0 <= start <= |s|
      invariant forall k :: 0 <= k < start ==> IsSpace(s[k])
    {
      start := start + 1;
    }
    var end := |s|;
    while end > start && IsSpace(s[end - 1])
      invariant start <= end <= |s|
      invariant forall k :: end <= k < |s| ==> IsSpace(s[k])
    {
      end := end - 1;
    }
    TrimKeepsThePiece(s, start, end);
    r := s[start..end];
  }

  // ---------------------------------------------------------------------
  // Command lines

  /** A line starting with '/', split at its first space. */
  datatype CommandLine = CommandLine(command: string, argument: Option<string>)

  /**
   * The command is everything before the first space; the argument, when
   * there is a space, is the rest of the line trimmed.
   */
  function SplitCommand(line: string): (c: CommandLine)
    ensures ' ' !in c.command
    ensures c.argument.None? <==> ' ' !in line
    ensures c.argument.None? ==> c.command == line
  {
    match Find(line, ' ')
    case None => CommandLine(line, None)
    case Some(k) => CommandLine(line[..k], Some(Trim(line[k + 1..])))
  }

  /** The in-place split of process_command: the first space ends the command, and the rest is trimmed with ltrim. */
  method ParseCommandLine(line: string) returns (command: string, argument: Option<string>)
    ensures SplitCommand(line) == CommandLine(command, argument)
  {
    command, argument := line, None;
    match Find(line, ' ') {
      case None =>
      case Some(k) =>
        var trimmed := LTrim(line[k + 1..]);
        command, argument := line[..k], Some(trimmed);
    }
  }

  /** The table entry a command name selects: strcmp equality. */
  function NamedAs(command: string): Command -> bool {
    (c: Command) => c.name == command
  }

  /** The lookup loop of process_command: the first table entry whose name equals the command. */
  method LookupCommand(command: string) returns (index: Option<nat>)
    ensures index == FirstFrom(COMMANDS, NamedAs(command), 0)
    ensures index.Some? ==> index.value < |COMMANDS| && COMMANDS[index.value].name == command
    ensures index.None? <==> forall i :: 0 <= i < |COMMANDS| ==> COMMANDS[i].name != command
  {
    var counter := 0;
    while counter < |COMMANDS|
      invariant 0 <= counter <= |COMMANDS|
      invariant forall i :: 0 <= i < counter ==> COMMANDS[i].name != command
      invariant FirstFrom(COMMANDS, NamedAs(command), 0) == FirstFrom(COMMANDS, NamedAs(command), counter)
    {
      if COMMANDS[counter].name == command {
        return Some(counter);
      }
      counter := counter + 1;
    }
    return None;
  }

  /** valid_argument: a missing or empty argument is refused only when the command requires one. */
  function ValidArgument(argument: Option<string>, reqArgs: bool): (ok: bool)
    ensures !reqArgs ==> ok
    ensures reqArgs ==> (ok <==> argument.Some? && |argument.value| > 0)
  {
    !reqArgs || (argument.Some? && argument.value != [])
  }

  /** What process_command does with a completed line. */
  datatype Action =
    | Chat                               // not a command: the line is a chat message
    | NotFound(command: string)          // "command ... not found"
    | MissingArgument(command: string)   // "...: Argument required."
    | Run(fn: CommandFn, argument: Option<string>)

  /** The decision process_command takes for a line. */
  function Dispatch(line: string): (a: Action)
    ensures a.Chat? <==> line == [] || line[0] != '/'
  {
    if line == [] || line[0] != '/' then Chat
    else
      var c := SplitCommand(line);
      match FirstFrom(COMMANDS, NamedAs(c.command), 0)
      case None => NotFound(c.command)
      case Some(i) =>
        if ValidArgument(c.argument, COMMANDS[i].reqArgs) then Run(COMMANDS[i].fn, c.argument)
        else MissingArgument(c.command)
  }

  /**
   * A command that runs is a table entry named like the line's command and
   * given an argument it accepts; a command that is not found names no entry.
   */
  lemma DispatchFollowsTable(line: string)
    ensures Dispatch(line).Run? ==>
              exists i :: 0 <= i < |COMMANDS| && COMMANDS[i].name == SplitCommand(line).command
                && COMMANDS[i].fn == Dispatch(line).fn && Dispatch(line).argument == SplitCommand(line).argument
                && ValidArgument(Dispatch(line).argument, COMMANDS[i].reqArgs)
    ensures Dispatch(line).NotFound? ==> forall i :: 0 <= i < |COMMANDS| ==> COMMANDS[i].name != Dispatch(line).command
  {
    if line != [] && line[0] == '/' {
      var c := SplitCommand(line);
      match FirstFrom(COMMANDS, NamedAs(c.command), 0)
      case None =>
        assert forall i :: 0 <= i < |COMMANDS| ==> !NamedAs(c.command)(COMMANDS[i]);
      case Some(i) =>
    }
  }

  /** The command ends at the first space, and the argument is everything after that space, trimmed. */
  lemma SplitAtFirstSpace(command: string, rest: string)
    requires ' ' !in command
    ensures SplitCommand(command + " " + rest) == CommandLine(command, Some(Trim(rest)))
  {
    var line := command + " " + rest;
    assert line[|command|] == ' ' && line[..|command|] == command;
    assert Find(line, ' ') == Some(|command|);
    assert line[|command| + 1..] == rest;
  }

  /** "/join <rest>" runs com_join on the trimmed rest, and is refused when the rest is blank. */
  lemma DispatchJoinLine(rest: string)
    ensures Dispatch("/join " + rest) ==
              if Trim(rest) == [] then MissingArgument("/join") else Run(JoinFn, Some(Trim(rest)))
  {
    assert "/join" + " " == "/join ";
    FindsTableEntry("/join", 3);
    DispatchWithArgument("/join", rest, 3);
  }

  /** A line naming table entry i, followed by a space, runs that entry on the trimmed rest of the line. */
  lemma DispatchWithArgument(command: string, rest: string, i: nat)
    requires command != [] && command[0] == '/' && ' ' !in command
    requires i < |COMMANDS| && FirstFrom(COMMANDS, NamedAs(command), 0) == Some(i)
    ensures Dispatch(command + " " + rest) ==
              if ValidArgument(Some(Trim(rest)), COMMANDS[i].reqArgs) then Run(COMMANDS[i].fn, Some(Trim(rest)))
              else MissingArgument(command)
  {
    SplitAtFirstSpace(command, rest);
  }

  /** A bare "/leave" runs com_leave without an argument. */
  lemma DispatchBareLeave()
    ensures Dispatch("/leave") == Run(LeaveFn, None)
  {
    assert ' ' !in "/leave";
    FindsTableEntry("/leave", 6);
    DispatchWithoutArgument("/leave", 6);
  }

  /** A line that is just the name of table entry i runs that entry without an argument, when it takes none. */
  lemma DispatchWithoutArgument(command: string, i: nat)
    requires command != [] && command[0] == '/' && ' ' !in command
    requires i < |COMMANDS| && FirstFrom(COMMANDS, NamedAs(command), 0) == Some(i)
    ensures Dispatch(command) == if COMMANDS[i].reqArgs then MissingArgument(command) else Run(COMMANDS[i].fn, None)
  {
    assert Find(command, ' ').None?;
  }

  /** The lookup finds a name at the index of the entry that carries it: the table's names differ at their second character. */
  lemma FindsTableEntry(command: string, i: nat)
    requires i < |COMMANDS| && COMMANDS[i].name == command && |command| > 2
    requires forall j :: 0 <= j < i ==> COMMANDS[j].name[1] != command[1] || COMMANDS[j].name[2] != command[2]
    ensures FirstFrom(COMMANDS, NamedAs(command), 0) == Some(i)
  {
    FirstFromFindsFirstHit(COMMANDS, NamedAs(command), 0, i);
  }

  // ---------------------------------------------------------------------
  // Chat messages

  /** get_channel's answer: the first slot in use that has the token as a prefix, else the active slot. */
  function PrefixLookup(names: seq<string>, token: string, current: nat): (k: nat)
    requires current < |names|
    ensures k < |names|
    ensures (exists j :: 0 <= j < |names| && HasPrefix(names[j], token)) ==>
              HasPrefix(names[k], token) && forall j :: 0 <= j < k ==> !HasPrefix(names[j], token)
    ensures (forall j :: 0 <= j < |names| ==> !HasPrefix(names[j], token)) ==> k == current
  {
    match FirstFrom(names, PrefixOf(token), 0)
    case Some(k) => k
    case None =>
      assert forall j :: 0 <= j < |names| ==> !PrefixOf(token)(names[j]);
      current
  }

  /** get_channel: compares slot by slot from slot 0, falling back to the active slot. */
  method GetChannel(o: Options, token: string) returns (channelId: int)
    requires o.Valid()
    ensures channelId == PrefixLookup(o.Names(), token, o.current)
  {
    channelId := 0;
    while !HasPrefix(o.channels[channelId], token)
      invariant 0 <= channelId < o.noChannels
      invariant FirstFrom(o.Names(), PrefixOf(token), 0) == FirstFrom(o.Names(), PrefixOf(token), channelId)
      decreases o.noChannels - channelId
    {
      channelId := channelId + 1;
      if channelId >= o.noChannels {
        channelId := o.current;
        return;
      }
    }
  }

  /** What send_irc_message does with a message. */
  datatype Route =
    | NotConnected                          // forgotten silently
    | ParseFailure                          // "failed to parse message": the client stops
    | Deliver(channel: string, text: string)
    | Nothing                               // parsed, but no text to send

  /**
   * A trimmed message taken apart: one starting with '#' is its channel
   * token up to the first space and the text after it (None when there is
   * no space); any other message is both its own token and its own text.
   */
  function SplitMessage(m: string): (p: Option<(string, string)>)
    ensures p.None? <==> m != [] && m[0] == '#' && ' ' !in m
    ensures p.Some? && m != [] && m[0] == '#' ==> m == p.value.0 + " " + p.value.1 && ' ' !in p.value.0
    ensures p.Some? && !(m != [] && m[0] == '#') ==> p.value == (m, m)
  {
    if m != [] && m[0] == '#' then
      match Find(m, ' ')
      case None => None
      case Some(sp) =>
        assert m == m[..sp] + " " + m[sp + 1..];
        Some((m[..sp], m[sp + 1..]))
    else Some((m, m))
  }

  /**
   * The decision send_irc_message takes: the message is trimmed and split
   * by SplitMessage; a non-empty text goes to the PrefixLookup slot of its
   * token, the name cut to MAX_CHANNELS_NAMELEN.
   */
  function RouteMessage(connected: bool, names: seq<string>, current: nat, msg: string): (r: Route)
    requires current < |names|
    ensures r.NotConnected? <==> !connected
    ensures r.ParseFailure? <==> connected && Trim(msg) != [] && Trim(msg)[0] == '#' && ' ' !in Trim(msg)
    ensures r.Deliver? ==> r.text != [] && |r.text| <= |Trim(msg)| && r.text == Trim(msg)[|Trim(msg)| - |r.text|..]
    ensures r.Deliver? ==> exists k :: 0 <= k < |names| && r.channel == Take(names[k], MAX_CHANNELS_NAMELEN)
  {
    if !connected then NotConnected
    else
      match SplitMessage(Trim(msg))
      case None => ParseFailure
      case Some((token, text)) =>
        if text == [] then Nothing
        else
          assert text == Trim(msg)[|Trim(msg)| - |text|..];
          Deliver(Take(names[PrefixLookup(names, token, current)], MAX_CHANNELS_NAMELEN), text)
  }

  /** "#chan text" goes to the first channel in use that "#chan" is a prefix of, with the text after the space. */
  lemma AddressedMessageGoesToNamedChannel(names: seq<string>, current: nat, msg: string, token: string, text: string, k: nat)
    requires current < |names| && k < |names|
    requires Trim(msg) == token + " " + text && token != [] && token[0] == '#' && ' ' !in token && text != []
    requires HasPrefix(names[k], token) && forall j :: 0 <= j < k ==> !HasPrefix(names[j], token)
    ensures RouteMessage(true, names, current, msg) == Deliver(Take(names[k], MAX_CHANNELS_NAMELEN), text)
  {
    var m := Trim(msg);
    assert m[|token|] == ' ' && m[..|token|] == token;
    assert Find(m, ' ') == Some(|token|);
    assert m[|token| + 1..] == text;
    assert forall j :: 0 <= j < k ==> !PrefixOf(token)(names[j]);
    FirstFromFindsFirstHit(names, PrefixOf(token), 0, k);
  }

  /** Any other non-blank message goes whole to the active channel, unless the message is itself a prefix of a channel name in use. */
  lemma PlainMessageGoesToActiveChannel(names: seq<string>, current: nat, msg: string)
    requires current < |names|
    requires Trim(msg) != [] && Trim(msg)[0] != '#'
    requires forall j :: 0 <= j < |names| ==> !HasPrefix(names[j], Trim(msg))
    ensures RouteMessage(true, names, current, msg) == Deliver(Take(names[current], MAX_CHANNELS_NAMELEN), Trim(msg))
  {
  }

  /** "#chan text" where no channel in use has "#chan" as a prefix goes to the active channel. */
  lemma AddressedUnknownChannelGoesToActive(names: seq<string>, current: nat, msg: string, token: string, text: string)
    requires current < |names|
    requires Trim(msg) == token + " " + text && token != [] && token[0] == '#' && ' ' !in token && text != []
    requires forall j :: 0 <= j < |names| ==> !HasPrefix(names[j], token)
    ensures RouteMessage(true, names, current, msg) == Deliver(Take(names[current], MAX_CHANNELS_NAMELEN), text)
  {
    AddressedSplit(Trim(msg), token, text);
  }

  /** A '#' token, a space and a text split back into the token and the text. */
  lemma AddressedSplit(m: string, token: string, text: string)
    requires m == token + " " + text && token != [] && token[0] == '#' && ' ' !in token
    ensures SplitMessage(m) == Some((token, text))
  {
    assert m[|token|] == ' ' && m[..|token|] == token;
    assert Find(m, ' ') == Some(|token|);
    assert m[|token| + 1..] == text;
  }

  /**
   * A plain message that is itself a prefix of a channel name in use is
   * taken for a channel token: it goes whole to the first such channel, not
   * to the active one.
   */
  lemma PlainPrefixMessageGoesToMatchingChannel(names: seq<string>, current: nat, msg: string, k: nat)
    requires current < |names| && k < |names|
    requires Trim(msg) != [] && Trim(msg)[0] != '#'
    requires HasPrefix(names[k], Trim(msg)) && forall j :: 0 <= j < k ==> !HasPrefix(names[j], Trim(msg))
    ensures RouteMessage(true, names, current, msg) == Deliver(Take(names[k], MAX_CHANNELS_NAMELEN), Trim(msg))
  {
    var m := Trim(msg);
    assert forall j :: 0 <= j < k ==> !PrefixOf(m)(names[j]);
    FirstFromFindsFirstHit(names, PrefixOf(m), 0, k);
  }

  /** A blank message sends nothing and does not stop the client. */
  lemma BlankMessageSendsNothing(names: seq<string>, current: nat, msg: string)
    requires current < |names|
    requires forall k :: 0 <= k < |msg| ==> IsSpace(msg[k])
    ensures RouteMessage(true, names, current, msg) == Nothing
  {
  }

  /** The in-place split send_irc_message performs on the trimmed message. */
  method SplitTrimmed(m: string) returns (token: string, text: Option<string>)
    ensures text.None? <==> SplitMessage(m).None?
    ensures text.Some? ==> SplitMessage(m) == Some((token, text.value))
  {
    token, text := m, Some(m);
    if m != [] && m[0] == '#' {
      match Find(m, ' ')
      case None =>
        text := None;
      case Some(sp) =>
        token, text := m[..sp], Some(m[sp + 1..]);
    }
  }

  /**
   * send_irc_message: a parse failure clears `running`; a delivery hands the
   * text and channel to the library; the registry never changes.
   */
  method SendIrcMessage(o: Options, irc: IrcMod.IrcSession, msg: string)
    requires o.Valid()
    modifies o`running, irc`requests
    ensures o.Valid()
    ensures var r := RouteMessage(o.connected, old(o.Names()), o.current, msg);
            && o.running == (old(o.running) && !r.ParseFailure?)
            && irc.requests == old(irc.requests) + (if r.Deliver? && irc.connected then [IrcMod.Msg(r.channel, r.text)] else [])
  {
    var failed := o.connected;
    if o.connected {
      var m := LTrim(msg);
      var token, text := SplitTrimmed(m);
      if text.Some? {
        var channelId := GetChannel(o, token);
        if |text.value| > 0 {
          var channel := Take(o.channels[channelId], MAX_CHANNELS_NAMELEN);
          var _ := irc.SendRawMsg(text.value, channel);
        }
        failed := false;
      }
    }
    if failed {
      o.running := false;
    }
  }

  // ---------------------------------------------------------------------
  // Reading stdin

  /** The byte that, read into a signed char, equals EOF and so also ends a line. */
  const EOF_CHAR: char := '\U{00FF}'

  /**
   * The characters one sgets call stores: up to size-1 characters, stopping
   * before a newline, the byte 0xFF or the end of the stream.
   */
  function LineOf(stream: string, size: nat): (line: string)
    requires size >= 1
    ensures line <= stream && |line| <= size - 1
    ensures '\n' !in line && EOF_CHAR !in line
    decreases size
  {
    if size == 1 || stream == [] || stream[0] == '\n' || stream[0] == EOF_CHAR then []
    else [stream[0]] + LineOf(stream[1..], size - 1)
  }

  /** The line ends at a newline, at EOF, at the end of the stream, or when size-1 characters are stored. */
  lemma {:induction false} LineStopsAtTerminator(stream: string, size: nat)
    requires size >= 1
    ensures var n := |LineOf(stream, size)|;
            n == size - 1 || n == |stream| || stream[n] == '\n' || stream[n] == EOF_CHAR
    decreases size
  {
    if !(size == 1 || stream == [] || stream[0] == '\n' || stream[0] == EOF_CHAR) {
      LineStopsAtTerminator(stream[1..], size - 1);
    }
  }

  /** What one sgets call leaves unread: the line and, when one was read, its terminator are consumed. */
  function RestOf(stream: string, size: nat): (rest: string)
    requires size >= 1
    ensures |rest| <= |stream| && rest == stream[|stream| - |rest|..]
    ensures var n := |LineOf(stream, size)|;
            |stream| - |rest| == if n < size - 1 && n < |stream| then n + 1 else n
  {
    var n := |LineOf(stream, size)|;
    if n < size - 1 && n < |stream| then stream[n + 1..] else stream[n..]
  }

  /** A blank line in the pipe stores nothing, exactly like the end of the stream. */
  lemma BlankLineReadsLikeEndOfStream(stream: string, size: nat)
    requires size >= 1
    requires stream == [] || stream[0] == '\n'
    ensures LineOf(stream, size) == []
    ensures RestOf(stream, size) == if stream == [] || size == 1 then stream else stream[1..]
  {
  }

  /**
   * sgets: reads one character at a time into line[i] until a newline, EOF
   * (a read of nothing, or the byte 0xFF) or size-1 stored characters.
   */
  method Sgets(stream: string, size: nat) returns (stored: string, rest: string)
    requires size >= 1
    ensures stored == LineOf(stream, size)
    ensures rest == RestOf(stream, size)
  {
    var i := 0;
    stored := [];
    while i < size - 1
      invariant i <= size - 1 && i <= |stream|
      invariant stored == stream[..i]
      invariant forall k :: 0 <= k < i ==> stream[k] != '\n' && stream[k] != EOF_CHAR
    {
      var ch := if i < |stream| then stream[i] else EOF_CHAR;
      if ch == '\n' || ch == EOF_CHAR {
        break;
      }
      stored := stored + [ch];
      i := i + 1;
    }
    LineUpTo(stream, size, i);
    // the read that ended the loop consumed its character, unless nothing was left to read
    rest := if i < size - 1 && i < |stream| then stream[i + 1..] else stream[i..];
  }

  /** Characters that end nothing, up to a stopping point, are exactly the line sgets stores. */
  lemma {:induction false} LineUpTo(stream: string, size: nat, i: nat)
    requires size >= 1 && i <= size - 1 && i <= |stream|
    requires forall k :: 0 <= k < i ==> stream[k] != '\n' && stream[k] != EOF_CHAR
    requires i == size - 1 || i == |stream| || stream[i] == '\n' || stream[i] == EOF_CHAR
    ensures LineOf(stream, size) == stream[..i]
    decreases i
  {
    if i > 0 {
      var tail := stream[1..];
      assert forall k :: 0 <= k < i - 1 ==> tail[k] != '\n' && tail[k] != EOF_CHAR by {
        forall k | 0 <= k < i - 1
          ensures tail[k] != '\n' && tail[k] != EOF_CHAR
        {
          assert tail[k] == stream[k + 1];
        }
      }
      assert i - 1 == |tail| || tail[i - 1] == stream[i];
      LineUpTo(tail, size - 1, i - 1);
      assert stream[..i] == [stream[0]] + tail[..i - 1];
    }
  }

  /** The C string a buffer holds: everything before its first NUL. */
  function UpToNul(buffer: string): (r: string)
    ensures r <= buffer && '\0' !in r
    ensures |r| < |buffer| ==> buffer[|r|] == '\0'
  {
    match Find(buffer, '\0')
    case None => buffer
    case Some(k) => buffer[..k]
  }

  /** The registry after a command that is not a chat message. */
  function AfterCommand(reg: Registry, a: Action, libResult: int): (r: Registry)
    requires reg.Valid()
    ensures r.Valid()
  {
    match a
    case Run(ChannelFn, Some(arg)) => AfterChannel(reg, arg)
    case Run(JoinFn, Some(arg)) => AfterJoin(reg, arg, libResult)
    case Run(LeaveFn, arg) => AfterLeave(reg, arg)
    case _ => reg
  }

  /** The requests a command that is not a chat message hands the library. */
  function CommandRequests(reg: Registry, a: Action): (rs: seq<IrcMod.Request>)
    requires reg.Valid()
    ensures |rs| <= 1
    ensures !(a.Run? && (a.fn == JoinFn || a.fn == LeaveFn)) ==> rs == []
  {
    match a
    case Run(JoinFn, Some(arg)) => JoinRequests(reg, arg)
    case Run(LeaveFn, arg) => LeaveRequests(reg, arg)
    case _ => []
  }

  /** Only /exit and /quit clear `running`: every handler returns true. */
  predicate StopsClient(a: Action) {
    a.Run? && a.fn == ExitFn
  }

  /** Only /join, /channel and /leave touch the registry, and only /join and /leave talk to the library. */
  lemma OnlyRegistryCommandsChangeIt(reg: Registry, a: Action, libResult: int)
    requires reg.Valid()
    requires !(a.Run? && (a.fn == JoinFn || a.fn == ChannelFn || a.fn == LeaveFn))
    ensures AfterCommand(reg, a, libResult) == reg && CommandRequests(reg, a) == []
  {
  }

  /**
   * The handler call of process_command. A handler answering false would
   * stop the client, but every handler answers true.
   */
  method RunCommand(o: Options, irc: IrcMod.IrcSession, fn: CommandFn, argument: Option<string>, libResult: int)
    requires o.Valid()
    requires fn == JoinFn || fn == ChannelFn ==> argument.Some?
    modifies o`running, o`noChannels, o`current, o.channels, o.passwords, irc`requests
    ensures o.Valid()
    ensures o.Slots() == AfterCommand(old(o.Slots()), Run(fn, argument), libResult)
    ensures irc.requests == old(irc.requests) + CommandRequests(old(o.Slots()), Run(fn, argument))
    ensures o.running == (old(o.running) && !StopsClient(Run(fn, argument)))
  {
    match fn {
      case HelpFn => var _, _ := ComHelp(o);
      case ExitFn => var _ := ComExit(o);
      case JoinFn => var _ := ComJoin(o, irc, argument.value, libResult);
      case ListFn => var _, _ := ComList(o);
      case ChannelFn => var _ := ComChannel(o, argument.value);
      case LeaveFn => var _ := ComLeave(o, irc, argument, libResult);
    }
  }

  /**
   * What process_command does to the registry, the `running` flag and the
   * requests sent: a chat message is routed by RouteMessage and never
   * touches the registry; a command changes them as AfterCommand,
   * CommandRequests and StopsClient say.
   */
  ghost predicate CommandEffect(line: string, libResult: int, connected: bool, ircConnected: bool,
                                before: Registry, after: Registry, running0: bool, running1: bool,
                                requests0: seq<IrcMod.Request>, requests1: seq<IrcMod.Request>)
    requires before.Valid()
  {
    var a := Dispatch(line);
    if a.Chat? then
      var r := RouteMessage(connected, before.Names(), before.current, line);
      && after == before
      && running1 == (running0 && !r.ParseFailure?)
      && requests1 == requests0 + (if r.Deliver? && ircConnected then [IrcMod.Msg(r.channel, r.text)] else [])
    else
      && after == AfterCommand(before, a, libResult)
      && requests1 == requests0 + CommandRequests(before, a)
      && running1 == (running0 && !StopsClient(a))
  }

  /**
   * process_command: a line not starting with '/' is a chat message; an
   * unknown command or a missing argument changes nothing; otherwise the
   * handler runs.
   */
  method ProcessCommand(o: Options, irc: IrcMod.IrcSession, line: string, libResult: int) returns (a: Action)
    requires o.Valid()
    modifies o`running, o`noChannels, o`current, o.channels, o.passwords, irc`requests
    ensures o.Valid()
    ensures a == Dispatch(line)
    ensures CommandEffect(line, libResult, o.connected, irc.connected, old(o.Slots()), o.Slots(),
                          old(o.running), o.running, old(irc.requests), irc.requests)
  {
    if line == [] || line[0] != '/' {
      SendIrcMessage(o, irc, line);
      return Chat;
    }
    a := DecideCommand(line);
    if a.Run? {
      RunCommand(o, irc, a.fn, a.argument, libResult);
    }
  }

  /**
   * The decision half of process_command, for a line that starts with '/':
   * split off the argument, look the command up, check the argument.
   */
  method DecideCommand(line: string) returns (a: Action)
    requires line != [] && line[0] == '/'
    ensures a == Dispatch(line)
    ensures a.Run? && (a.fn == JoinFn || a.fn == ChannelFn) ==> a.argument.Some? && a.argument.value != []
  {
    var command, argument := ParseCommandLine(line);
    var index := LookupCommand(command);
    if index.None? {
      return NotFound(command);
    }
    if !ValidArgument(argument, COMMANDS[index.value].reqArgs) {
      return MissingArgument(command);
    }
    HandlersWithArgumentRequireIt(index.value);
    return Run(COMMANDS[index.value].fn, argument);
  }

  /**
   * What one read of the pipe does to the mode, the `running` flag and the
   * requests sent: zero characters read switch to output-only mode when
   * keepreading is set and stop the client otherwise; a line read while
   * running is routed by RouteMessage.
   */
  ghost predicate PipeEffect(stream: string, keepreading: bool, connected: bool, ircConnected: bool,
                             reg: Registry, mode0: Mode, mode1: Mode, running0: bool, running1: bool,
                             requests0: seq<IrcMod.Request>, requests1: seq<IrcMod.Request>)
    requires reg.Valid()
  {
    var line := LineOf(stream, 300);
    if line == [] then
      && (if keepreading then mode1 == OUTPUT && running1 == running0 else mode1 == mode0 && !running1)
      && requests1 == requests0
    else
      var r := RouteMessage(connected, reg.Names(), reg.current, UpToNul(line));
      && mode1 == mode0
      && running1 == (running0 && !(running0 && r.ParseFailure?))
      && requests1 == requests0 + (if running0 && r.Deliver? && ircConnected then [IrcMod.Msg(r.channel, r.text)] else [])
  }

  /**
   * The pipe branch of process_input: one line of stdin is read and acts
   * as PipeEffect says; the registry is untouched.
   */
  method ReadPipe(o: Options, irc: IrcMod.IrcSession, stream: string) returns (rest: string)
    requires o.Valid()
    modifies o`running, o`mode, irc`requests
    ensures o.Valid() && o.Slots() == old(o.Slots())
    ensures PipeEffect(stream, o.keepreading, o.connected, irc.connected, o.Slots(),
                       old(o.mode), o.mode, old(o.running), o.running, old(irc.requests), irc.requests)
    ensures rest == RestOf(stream, 300)
  {
    var stored;
    stored, rest := Sgets(stream, 300);
    if |stored| == 0 {
      if o.keepreading {
        o.mode := OUTPUT;
      } else {
        o.running := false;
      }
    } else if o.running {
      SendIrcMessage(o, irc, UpToNul(stored));
    }
  }

  /**
   * process_input: in interactive mode a line readline has completed goes
   * to process_command; otherwise, once connected, one line of the pipe is
   * read; otherwise nothing happens.
   */
  method ProcessInput(o: Options, irc: IrcMod.IrcSession, completed: Option<string>, stream: string, libResult: int)
    returns (rest: string)
    requires o.Valid()
    modifies o`running, o`mode, o`noChannels, o`current, o.channels, o.passwords, irc`requests
    ensures o.Valid()
    ensures !o.interactive ==> o.Slots() == old(o.Slots())
    ensures !o.interactive && !o.connected ==>
              rest == stream && o.running == old(o.running) && o.mode == old(o.mode) && irc.requests == old(irc.requests)
    ensures !o.interactive && o.connected ==> rest == RestOf(stream, 300)
    ensures !o.interactive && o.connected ==>
              PipeEffect(stream, o.keepreading, o.connected, irc.connected, old(o.Slots()),
                         old(o.mode), o.mode, old(o.running), o.running, old(irc.requests), irc.requests)
    ensures o.interactive ==> rest == stream && o.mode == old(o.mode)
    ensures o.interactive && completed.None? ==>
              o.running == old(o.running) && o.Slots() == old(o.Slots()) && irc.requests == old(irc.requests)
    ensures o.interactive && completed.Some? ==>
              CommandEffect(completed.value, libResult, o.connected, irc.connected, old(o.Slots()), o.Slots(),
                            old(o.running), o.running, old(irc.requests), irc.requests)
  {
    rest := stream;
    if o.interactive {
      if completed.Some? {
        var _ := ProcessCommand(o, irc, completed.value, libResult);
      }
    } else if o.connected {
      rest := ReadPipe(o, irc, stream);
    }
  }

  // ---------------------------------------------------------------------
  // Readline set-up and completion

  /** The interactive-mode test init_readline evidently intends: stdin is a terminal and the mode includes input. */
  function StaysInteractive(interactive: bool, stdinIsTty: bool, mode: Mode): (ok: bool)
    ensures ok <==> interactive && stdinIsTty && (mode == INPUT || mode == BOTH)
  {
    interactive && stdinIsTty && HasInput(mode)
  }

  /** The test as written: `(options.mode | input) == 0`, which no mode satisfies. */
  function StaysInteractiveAsWritten(interactive: bool, stdinIsTty: bool, mode: Mode): (ok: bool)
    ensures ok <==> interactive && stdinIsTty
  {
    interactive && !(!stdinIsTty || ((mode as bv2) | (INPUT as bv2)) == 0)
  }

  /** As written, the mode plays no part: an output-only client on a terminal stays interactive. */
  lemma ModeTestIsDeadAsWritten(interactive: bool, stdinIsTty: bool, mode: Mode)
    ensures StaysInteractiveAsWritten(interactive, stdinIsTty, mode) <==> interactive && stdinIsTty
    ensures StaysInteractiveAsWritten(true, true, OUTPUT) && !StaysInteractive(true, true, OUTPUT)
  {
  }

  /** With the intended test, interactive mode survives exactly when stdin is a terminal and the mode reads input. */
  lemma InteractiveNeedsInputMode(interactive: bool, stdinIsTty: bool, mode: Mode)
    ensures StaysInteractive(interactive, stdinIsTty, mode) ==> mode == INPUT || mode == BOTH
    ensures StaysInteractive(interactive, stdinIsTty, mode) <==> interactive && stdinIsTty && (mode == INPUT || mode == BOTH)
  {
    ModeBits(mode);
  }

  /**
   * init_readline (with the intended mode test): interactive mode is kept
   * only for a terminal and a mode that reads input; it then shows channel
   * and nick and switches the mode to output, readline taking over input.
   */
  method InitReadline(o: Options, stdinIsTty: bool)
    modifies o`interactive, o`showchannel, o`shownick, o`mode
    ensures o.interactive == StaysInteractive(old(o.interactive), stdinIsTty, old(o.mode))
    ensures o.interactive ==> o.showchannel && o.shownick && o.mode == OUTPUT
    ensures !o.interactive ==> o.showchannel == old(o.showchannel) && o.shownick == old(o.shownick) && o.mode == old(o.mode)
  {
    if !stdinIsTty || !HasInput(o.mode) {
      o.interactive := false;
    }
    if o.interactive {
      o.showchannel := true;
      o.shownick := true;
      o.mode := OUTPUT;
    }
  }

  /** The size change_prompt allocates for the prompt as written: the two names plus 3. */
  function PromptAllocationAsWritten(botname: string, channel: string): (n: nat)
    ensures n == |PromptText(botname, channel)|
  {
    |botname| + |channel| + 3
  }

  /** As written the allocation holds the prompt's characters but not its terminator. */
  lemma PromptOverrunsAsWritten(botname: string, channel: string)
    ensures |PromptText(botname, channel)| == PromptAllocationAsWritten(botname, channel)
    ensures |PromptText(botname, channel) + "\0"| > PromptAllocationAsWritten(botname, channel)
  {
  }

  /** The allocation the prompt needs: its characters and the terminator sprintf writes. */
  function PromptAllocation(botname: string, channel: string): (n: nat)
    ensures n == |PromptText(botname, channel)| + 1
  {
    |botname| + |channel| + 4
  }

  /**
   * change_prompt (with the corrected allocation): in interactive mode a
   * fresh buffer receives the prompt and its terminator, and the prompt it
   * then holds is the text for the bot name and the active channel.
   */
  method ChangePrompt(o: Options) returns (prompt: Option<string>)
    requires o.Valid()
    ensures prompt.Some? <==> o.interactive
    ensures prompt.Some? ==> prompt.value == PromptText(o.botname, o.channels[o.current])
  {
    if !o.interactive {
      return None;
    }
    var text := PromptText(o.botname, o.channels[o.current]);
    var buffer := new char[PromptAllocation(o.botname, o.channels[o.current])];
    var i := 0;
    while i < |text|
      invariant 0 <= i <= |text|
      invariant buffer[..i] == text[..i]
    {
      buffer[i] := text[i];
      i := i + 1;
    }
    buffer[|text|] := '\0';
    assert buffer[..|text|] == text[..|text|];
    prompt := Some(buffer[..|text|]);
  }
}
