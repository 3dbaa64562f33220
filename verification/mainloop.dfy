/**
 * The front end in main.c: the connect, join and channel callbacks it
 * installs, its own line router for text read from stdin (older and
 * simpler than the one in input.c), the rule for watching stdin and the
 * verbosity normalisation done between the two argument passes.
 */
module IrcMain {
  import opened CStrings
  import opened Options
  import IrcMod
  import Input

  /*** Routing a line read from stdin ***/

  /** Where the first '#' of a line leads: no '#', a '#' token without a following space, or token and text. */
  datatype Addressing = Unaddressed | Unterminated | Addressed(token: string, text: string)

  /**
   * The two strchr calls of send_irc_message: the token runs from the first
   * '#' anywhere in the line to the next space, and the text is what follows
   * that space; whatever precedes the '#' is dropped.
   */
  function AddressOf(m: string): (a: Addressing)
    ensures a.Unaddressed? <==> '#' !in m
    ensures a.Addressed? ==> a.token != [] && a.token[0] == '#' && ' ' !in a.token
  {
    match Find(m, '#')
    case None => Unaddressed
    case Some(h) => SplitToken(m[h..])
  }

  /** The second strchr: the token ends at the first space, and the text is what follows that space. */
  function SplitToken(t: string): (a: Addressing)
    ensures !a.Unaddressed?
    ensures a.Unterminated? <==> ' ' !in t
    ensures a.Addressed? ==> t == a.token + " " + a.text && ' ' !in a.token
  {
    match Find(t, ' ')
    case None => Unterminated
    case Some(sp) =>
      assert t == t[..sp] + " " + t[sp + 1..];
      Addressed(t[..sp], t[sp + 1..])
  }

  /** The text before the first '#' of a line, which send_irc_message drops. */
  function Lead(m: string): (lead: string)
    ensures lead <= m && '#' !in lead
    ensures |lead| < |m| ==> m[|lead|] == '#'
  {
    match Find(m, '#')
    case None => m
    case Some(h) => m[..h]
  }

  /** The pieces AddressOf names put the line back together after its lead. */
  lemma AddressOfSplitsLine(m: string)
    requires AddressOf(m).Addressed?
    ensures m == Lead(m) + (AddressOf(m).token + " " + AddressOf(m).text)
  {
    var h := Find(m, '#').value;
    assert m == m[..h] + m[h..];
  }

  /** A line whose '#' token has no space after it is its lead and a space-free token from that '#' on. */
  lemma UnterminatedLineEndsInToken(m: string)
    requires AddressOf(m).Unterminated?
    ensures |Lead(m)| < |m| && ' ' !in m[|Lead(m)|..]
  {
  }

  /** Splitting a line built from a '#'-free lead, a token and a text gives that token and that text back. */
  lemma AddressOfComposed(lead: string, token: string, text: string)
    requires '#' !in lead
    requires token != [] && token[0] == '#' && ' ' !in token
    ensures AddressOf(lead + token + " " + text) == Addressed(token, text)
  {
    var rest := token + " " + text;
    assert lead + token + " " + text == lead + rest;
    LeadIsDropped(lead, rest);
    assert Find(rest, '#') == Some(0) && rest[0..] == rest;
    SpaceEndsToken(token, text);
  }

  /** What precedes the first '#' does not change how a line is addressed. */
  lemma LeadIsDropped(lead: string, rest: string)
    requires '#' !in lead && rest != [] && rest[0] == '#'
    ensures AddressOf(lead + rest) == AddressOf(rest)
  {
    HashStartsAt(lead, rest);
    assert Find(rest, '#') == Some(0);
    assert rest[0..] == rest;
  }

  /** In a '#'-free lead followed by a '#', the first '#' is the one after the lead. */
  lemma HashStartsAt(lead: string, rest: string)
    requires '#' !in lead && rest != [] && rest[0] == '#'
    ensures Find(lead + rest, '#') == Some(|lead|) && (lead + rest)[|lead|..] == rest
  {
    assert (lead + rest)[..|lead|] == lead;
    FindIsFirstOccurrence(lead + rest, '#', |lead|);
  }

  /** In a space-free token followed by a space, the first space is the one after the token. */
  lemma SpaceEndsToken(token: string, text: string)
    requires ' ' !in token
    ensures Find(token + " " + text, ' ') == Some(|token|)
    ensures (token + " " + text)[..|token|] == token && (token + " " + text)[|token| + 1..] == text
  {
    assert (token + " " + text)[..|token|] == token;
    FindIsFirstOccurrence(token + " " + text, ' ', |token|);
  }

  /** The outcome of send_irc_message: no line at all, a line that sends nothing, or text for a slot. */
  datatype Outcome = NullMessage | NoSend | SendTo(slot: nat, text: string)

  /** The exact-name test of the channel search: strncmp over the token's length plus its terminator. */
  function NamedExactly(token: string): string -> bool {
    s => s == token
  }

  /**
   * The decision of main.c's send_irc_message over the names in use: a line
   * without '#' goes whole to slot 0; a '#' token without a following space
   * sends nothing; otherwise the text goes to the first slot named exactly
   * like the token, or to slot 0 when none is.
   */
  function RouteLine(names: seq<string>, msg: Option<string>): (r: Outcome)
    requires |names| >= 1
    ensures r.NullMessage? <==> msg.None?
    ensures r.SendTo? ==> r.slot < |names|
    ensures msg.Some? ==> (r.NoSend? <==> AddressOf(msg.value).Unterminated?)
    ensures msg.Some? && '#' !in msg.value ==> r == SendTo(0, msg.value)
    ensures msg.Some? && AddressOf(msg.value).Addressed? ==>
              var a := AddressOf(msg.value);
              && r.SendTo? && r.text == a.text
              && (a.token in names ==> names[r.slot] == a.token && a.token !in names[..r.slot])
              && (a.token !in names ==> r.slot == 0)
  {
    match msg
    case None => NullMessage
    case Some(m) =>
      match AddressOf(m)
      case Unaddressed => SendTo(0, m)
      case Unterminated => NoSend
      case Addressed(token, text) =>
        match FirstFrom(names, NamedExactly(token), 0)
        case Some(k) =>
          assert forall j :: 0 <= j < k ==> names[..k][j] == names[j];
          SendTo(k, text)
        case None => SendTo(0, text)
  }

  /** A line "<lead>#chan <text>" goes to the first slot named #chan; the lead is dropped. */
  lemma AddressedLineGoesToNamedSlot(names: seq<string>, lead: string, token: string, text: string, k: nat)
    requires '#' !in lead
    requires token != [] && token[0] == '#' && ' ' !in token
    requires k < |names| && names[k] == token && token !in names[..k]
    ensures RouteLine(names, Some(lead + token + " " + text)) == SendTo(k, text)
  {
    AddressOfComposed(lead, token, text);
    forall j | 0 <= j < k ensures !NamedExactly(token)(names[j]) {
      assert names[..k][j] == names[j];
    }
    FirstFromFindsFirstHit(names, NamedExactly(token), 0, k);
  }

  /** A token naming no slot falls back to slot 0, and the text is still sent. */
  lemma UnknownChannelFallsBackToFirstSlot(names: seq<string>, lead: string, token: string, text: string)
    requires |names| >= 1
    requires '#' !in lead
    requires token != [] && token[0] == '#' && ' ' !in token
    requires token !in names
    ensures RouteLine(names, Some(lead + token + " " + text)) == SendTo(0, text)
  {
    AddressOfComposed(lead, token, text);
  }

  /** The requests one routing outcome makes of the library. */
  function Deliveries(names: seq<string>, r: Outcome, connected: bool): (rs: seq<IrcMod.Request>)
    requires r.SendTo? ==> r.slot < |names|
    ensures |rs| <= 1
    ensures rs != [] <==> r.SendTo? && connected
  {
    if r.SendTo? && connected then [IrcMod.Msg(Take(names[r.slot], MAX_CHANNELS_NAMELEN), r.text)] else []
  }

  /**
   * send_irc_message in main.c: answers true exactly when there is a line,
   * and hands the routed text to irc_send_raw_msg.
   */
  method SendIrcMessage(o: Options, irc: IrcMod.IrcSession, msg: Option<string>) returns (sent: bool)
    requires o.Valid()
    modifies irc`requests
    ensures sent <==> msg.Some?
    ensures irc.requests == old(irc.requests) + Deliveries(o.Names(), RouteLine(o.Names(), msg), irc.connected)
  {
    if msg.None? {
      return false;
    }
    var m := msg.value;
    var a := AddressOf(m);
    if a.Unterminated? {
      return true;
    }
    var id := 0;
    var text := m;
    ghost var names := o.Names();
    if a.Addressed? {
      text := a.text;
      id := ExactChannel(o, a.token);
    }
    assert RouteLine(names, msg) == SendTo(id, text);
    assert names[id] == o.channels[id];
    var channel := Take(o.channels[id], MAX_CHANNELS_NAMELEN);
    var _ := irc.SendRawMsg(text, channel);
    sent := true;
  }

  /**
   * The channel search of send_irc_message: the first slot in use named
   * exactly like the token, or slot 0 when none is.
   */
  method ExactChannel(o: Options, token: string) returns (id: nat)
    requires o.Valid()
    ensures id < o.noChannels
    ensures id == match FirstFrom(o.Names(), NamedExactly(token), 0) case Some(k) => k case None => 0
  {
    id := 0;
    while o.channels[id] != token
      invariant 0 <= id < o.noChannels
      invariant forall j :: 0 <= j < id ==> o.channels[j] != token
      decreases o.noChannels - id
    {
      id := id + 1;
      if id >= o.noChannels {
        id := 0;
        break;
      }
    }
    ChannelSearchAgrees(o.Names(), token, id);
  }

  /** The while loop over channels stops where the search specification says: the first exact match, or 0. */
  lemma ChannelSearchAgrees(names: seq<string>, token: string, id: nat)
    requires id < |names|
    requires (names[id] == token && forall j :: 0 <= j < id ==> names[j] != token)
          || (id == 0 && forall j :: 0 <= j < |names| ==> names[j] != token)
    ensures id == match FirstFrom(names, NamedExactly(token), 0) case Some(k) => k case None => 0
  {
    if names[id] == token {
      FirstFromFindsFirstHit(names, NamedExactly(token), 0, id);
    }
  }

  /**
   * One read of stdin in prog_main: sgets fills a 300-character buffer, and
   * a non-empty line is handed to send_irc_message while running, whose
   * answer is stored back into running.
   */
  method ReadStdinLine(o: Options, irc: IrcMod.IrcSession, stream: string) returns (rest: string)
    requires o.Valid()
    modifies o`running, irc`requests
    ensures o.running == old(o.running)
    ensures rest == Input.RestOf(stream, 300)
    ensures var line := Input.LineOf(stream, 300);
            irc.requests == old(irc.requests) +
              (if old(o.running) && line != [] then
                 Deliveries(old(o.Names()), RouteLine(old(o.Names()), Some(Input.UpToNul(line))), irc.connected)
               else [])
  {
    var stored;
    stored, rest := Input.Sgets(stream, 300);
    if |stored| > 0 && o.running {
      o.running := SendIrcMessage(o, irc, Some(Input.UpToNul(stored)));
    }
  }

  /*** Callbacks ***/

  /** The SIGINT and SIGHUP handler: the main loop ends after its current round. */
  method SigFunc(o: Options)
    modifies o`running
    ensures !o.running
  {
    o.running := false;
  }

  /** The join callback: the client counts as connected once a channel is joined. */
  method ModeCallback(o: Options)
    modifies o`connected
    ensures o.connected
  {
    o.connected := true;
  }

  /** The requests for joining the given channels with their passwords, in index order. */
  function JoinsOf(names: seq<string>, passwords: seq<string>): (rs: seq<IrcMod.Request>)
    requires |passwords| == |names|
    ensures |rs| == |names|
    ensures forall i :: 0 <= i < |names| ==> rs[i] == IrcMod.Join(names[i], passwords[i])
  {
    if names == [] then []
    else JoinsOf(names[..|names| - 1], passwords[..|names| - 1]) + [IrcMod.Join(names[|names| - 1], passwords[|names| - 1])]
  }

  /**
   * The connect callback: logs in at userserv, then asks to join every
   * channel in use, slot 0 first, each with its password. A failed join is
   * only logged, so what the library answers does not matter here.
   */
  method ServerConnect(o: Options, irc: IrcMod.IrcSession, libResult: int)
    requires o.Valid()
    modifies irc`requests
    ensures irc.requests == old(irc.requests)
              + (if irc.connected then [IrcMod.Msg("userserv", "login bot bone")] else [])
              + JoinsOf(o.Names(), o.Passwords())
  {
    var _ := irc.SendRawMsg("login bot bone", "userserv");
    ghost var start := irc.requests;
    var counter := 0;
    while counter < o.noChannels
      invariant 0 <= counter <= o.noChannels
      invariant irc.requests == start + JoinsOf(o.Names()[..counter], o.Passwords()[..counter])
    {
      var _ := irc.JoinChannel(o.channels[counter], o.passwords[counter], libResult);
      assert o.Names()[..counter + 1][..counter] == o.Names()[..counter];
      assert o.Passwords()[..counter + 1][..counter] == o.Passwords()[..counter];
      counter := counter + 1;
    }
    assert o.Names()[..counter] == o.Names();
    assert o.Passwords()[..counter] == o.Passwords();
  }

  /**
   * irc_channel_callback: channel text is shown only when the mode has the
   * output bit, the event has channel and text, and the client is not
   * silent; the channel and the sender's nick are each shown on request.
   */
  function ChannelDisplay(mode: Mode, silent: bool, showchannel: bool, shownick: bool,
                          count: nat, chan: string, nick: string, text: string): (out: Option<string>)
    ensures out.Some? <==> HasOutput(mode) && count >= 2 && !silent
    ensures out.Some? ==>
              out.value == (if showchannel then chan + " - " else "") + (if shownick then nick + ": " else "") + text + "\n"
  {
    if !HasOutput(mode) || count < 2 || silent then None
    else if showchannel && shownick then Some(chan + " - " + nick + ": " + text + "\n")
    else if showchannel then Some(chan + " - " + text + "\n")
    else if shownick then Some(nick + ": " + text + "\n")
    else Some(text + "\n")
  }

  /** Channel text always ends the displayed line, which ends in one newline. */
  lemma DisplayEndsWithText(mode: Mode, silent: bool, showchannel: bool, shownick: bool,
                            count: nat, chan: string, nick: string, text: string)
    requires ChannelDisplay(mode, silent, showchannel, shownick, count, chan, nick, text).Some?
    ensures var line := ChannelDisplay(mode, silent, showchannel, shownick, count, chan, nick, text).value;
            |line| > |text| && line[|line| - |text| - 1..] == text + "\n"
  {
    var line := ChannelDisplay(mode, silent, showchannel, shownick, count, chan, nick, text).value;
    var head := (if showchannel then chan + " - " else "") + (if shownick then nick + ": " else "");
    assert line == head + (text + "\n");
  }

  /** stdin joins the select read set exactly in input mode (input or both) once a channel is joined. */
  function WatchStdin(mode: Mode, connected: bool): (watch: bool)
    ensures watch <==> (mode == INPUT || mode == BOTH) && connected
  {
    ModeBits(mode);
    HasInput(mode) && connected
  }

  /*** Verbosity ***/

  datatype Verbosity = Verbosity(silent: bool, verbose: bool, debug: bool)

  /** The normalisation main applies after the configuration file: silent wins, debug implies verbose. */
  function Normalise(v: Verbosity): (r: Verbosity)
    ensures r.silent == v.silent
    ensures r.silent ==> !r.verbose && !r.debug
    ensures !v.silent ==> r.debug == v.debug && r.verbose == (v.verbose || v.debug)
  {
    if v.silent then Verbosity(true, false, false)
    else if v.debug then Verbosity(false, true, true)
    else if v.verbose then Verbosity(false, true, false)
    else v
  }

  /** Normalising twice is normalising once, and a consistent setting is left alone. */
  lemma NormaliseIdempotent(v: Verbosity)
    ensures Normalise(Normalise(v)) == Normalise(v)
    ensures (v.silent ==> !v.verbose && !v.debug) && (v.debug ==> v.verbose) ==> Normalise(v) == v
  {
  }

  /** The names main prints for the modes, indexed by the mode's value. */
  function ModeName(m: Mode): (name: string)
    ensures name == "none" <==> m == NONE
    ensures name == "input" <==> m == INPUT
    ensures name == "output" <==> m == OUTPUT
    ensures name == "both" <==> m == BOTH
  {
    ["none", "input", "output", "both"][m as int]
  }
}
