/**
 * The two command-line passes of arguments.c. The argtable results (which
 * options were given and with which values) are inputs: the primary pass
 * settles --help, --version, the verbosity flags, the configuration file
 * and parse errors; the secondary pass, after the configuration file, lets
 * the command line override every other field of `options`.
 */
module Arguments {
  import opened CStrings
  import opened Options
  import IrcMain

  /*** First pass ***/

  /** What argtable found for the options of the first pass. */
  datatype Primary = Primary(
    nullcheckFailed: bool, help: bool, version: bool,
    silent: bool, verbose: bool, debug: bool,
    config: Option<string>, nerrors: nat)

  /** Whether the client goes on, and the exit code, after the first pass. */
  datatype Verdict = Verdict(running: bool, exitcode: int)

  /**
   * The precedence of the first pass: a failed allocation stops with 1;
   * otherwise --help or --version stop with 0 ahead of any parse error; a
   * parse error alone stops with 1; a pass that finds the client stopped
   * leaves it stopped with 0.
   */
  function PrimaryVerdict(running: bool, p: Primary): (v: Verdict)
    ensures v.running <==> running && !p.nullcheckFailed && !p.help && !p.version && p.nerrors == 0
    ensures v.exitcode == 1 <==> p.nullcheckFailed || (running && !p.help && !p.version && p.nerrors > 0)
    ensures v.exitcode == 0 || v.exitcode == 1
  {
    var afterCheck := running && !p.nullcheckFailed;
    var code0 := if p.nullcheckFailed then 1 else 0;
    var afterHelp := if afterCheck && p.help then Verdict(false, 0) else Verdict(afterCheck, code0);
    var afterVersion := if afterHelp.running && p.version then Verdict(false, 0) else afterHelp;
    if afterVersion.running && p.nerrors > 0 then Verdict(false, 1) else afterVersion
  }

  /** --help wins over a parse error: the client stops with exit code 0. */
  lemma HelpTakesPrecedence(p: Primary)
    requires !p.nullcheckFailed && p.help
    ensures PrimaryVerdict(true, p) == Verdict(false, 0)
  {
  }

  /**
   * arg_parseprimairy: the verbosity flags and the configuration file are
   * taken while the client is still running after --help and --version,
   * which holds even when the parse found errors.
   */
  method ParsePrimary(o: Options, p: Primary) returns (exitcode: int)
    modifies o`running, o`silent, o`verbose, o`debug, o`configfile
    ensures Verdict(o.running, exitcode) == PrimaryVerdict(old(o.running), p)
    ensures var taken := old(o.running) && !p.nullcheckFailed && !p.help && !p.version;
            && o.silent == (old(o.silent) || (taken && p.silent))
            && o.verbose == (old(o.verbose) || (taken && (p.verbose || p.debug)))
            && o.debug == (old(o.debug) || (taken && p.debug))
            && o.configfile == (if taken && p.config.Some? then Take(p.config.value, 100) else old(o.configfile))
  {
    exitcode := 0;
    if p.nullcheckFailed {
      exitcode := 1;
      o.running := false;
    }
    if p.help && o.running {
      exitcode := 0;
      o.running := false;
    }
    if p.version && o.running {
      exitcode := 0;
      o.running := false;
    }
    if p.silent && o.running {
      o.silent := true;
    }
    if p.verbose && o.running {
      o.verbose := true;
    }
    if p.debug && o.running {
      o.debug := true;
      o.verbose := true;
    }
    if p.config.Some? && o.running {
      o.configfile := Take(p.config.value, 100);
    }
    if p.nerrors > 0 && o.running {
      exitcode := 1;
      o.running := false;
    }
  }

  /*** Second pass: single values ***/

  /** The mode an option value selects and the code the pass returns for it. */
  datatype ModeSetting = ModeSetting(mode: Mode, code: int)

  /**
   * --mode: matched by prefix against "in", "out" and "both" in that order;
   * any other value selects both and makes the pass fail.
   */
  function ParseMode(s: string): (r: ModeSetting)
    ensures r.code == 0 <==> HasPrefix(s, "in") || HasPrefix(s, "out") || HasPrefix(s, "both")
    ensures r.code != 0 ==> r == ModeSetting(BOTH, 1)
    ensures HasPrefix(s, "in") ==> r.mode == INPUT
    ensures HasPrefix(s, "out") ==> r.mode == OUTPUT
    ensures HasPrefix(s, "both") ==> r.mode == BOTH
    ensures r.mode != NONE
  {
    DiffersAtFirst(s, "in", "out");
    DiffersAtFirst(s, "in", "both");
    DiffersAtFirst(s, "out", "both");
    if HasPrefix(s, "in") then ModeSetting(INPUT, 0)
    else if HasPrefix(s, "out") then ModeSetting(OUTPUT, 0)
    else if HasPrefix(s, "both") then ModeSetting(BOTH, 0)
    else ModeSetting(BOTH, 1)
  }

  /**
   * The names main prints for the modes read back as those modes, except
   * "none": no option value selects the mode none.
   */
  lemma ModeNamesReadBack(m: Mode)
    ensures m != NONE ==> ParseMode(IrcMain.ModeName(m)) == ModeSetting(m, 0)
    ensures m == NONE ==> ParseMode(IrcMain.ModeName(m)) == ModeSetting(BOTH, 1)
  {
    var name := IrcMain.ModeName(m);
    if m == NONE {
      assert name == "none" && name[..4] == "none";
      DiffersAtFirst(name, "none", "in");
      DiffersAtFirst(name, "none", "out");
      DiffersAtFirst(name, "none", "both");
    } else if m == INPUT {
      assert name == "input" && name[..2] == "in";
    } else if m == OUTPUT {
      assert name == "output" && name[..3] == "out";
      DiffersAtFirst(name, "out", "in");
    } else {
      assert name == "both" && name[..4] == "both";
      DiffersAtFirst(name, "both", "in");
      DiffersAtFirst(name, "both", "out");
    }
  }

  /** Two prefixes that start with different characters cannot both be prefixes of one value. */
  lemma DiffersAtFirst(s: string, t: string, u: string)
    requires t != [] && u != [] && t[0] != u[0]
    ensures !(HasPrefix(s, t) && HasPrefix(s, u))
  {
  }

  /** --name: at most MAX_BOT_NAMELEN - 1 characters of the value, always terminated. */
  function TruncateBotname(v: string): (name: string)
    ensures |name| <= MAX_BOT_NAMELEN - 1 && name <= v
    ensures |v| <= MAX_BOT_NAMELEN - 1 ==> name == v
  {
    Take(v, MAX_BOT_NAMELEN - 1)
  }

  /*** Second pass: --channel values ***/

  /** What one --channel value sets: the slot's name, and its password when the value carries one. */
  datatype ChannelSetting = ChannelSetting(name: string, password: Option<string>)

  /**
   * The split as written: the value is copied into the MAX_CHANNELS_NAMELEN
   * name buffer and cut at its first ':', and the password copy starts at
   * that ':', which has just become the terminator, so it is always empty.
   */
  function ChannelValueAsWritten(v: string): (c: ChannelSetting)
    ensures c.name <= v && |c.name| <= MAX_CHANNELS_NAMELEN && ':' !in c.name
    ensures c.password.Some? <==> ':' in Take(v, MAX_CHANNELS_NAMELEN)
    ensures c.password.Some? ==> c.password.value == ""
  {
    var buffer := Take(v, MAX_CHANNELS_NAMELEN);
    match Find(buffer, ':')
    case None => ChannelSetting(buffer, None)
    case Some(k) => ChannelSetting(buffer[..k], Some(""))
  }

  /**
   * The split the help text promises for "name:password": the name is the
   * value up to its first ':' (cut to the name buffer), the password is
   * what follows that ':'. A ':' the name buffer does not reach is not seen,
   * as in the code.
   */
  function ChannelValue(v: string): (c: ChannelSetting)
    ensures c.name <= v && |c.name| <= MAX_CHANNELS_NAMELEN && ':' !in c.name
    ensures c.password.Some? <==> ':' in Take(v, MAX_CHANNELS_NAMELEN)
    ensures c.password.Some? ==> v == c.name + ":" + c.password.value
    ensures c.name == ChannelValueAsWritten(v).name
  {
    var buffer := Take(v, MAX_CHANNELS_NAMELEN);
    match Find(buffer, ':')
    case None => ChannelSetting(buffer, None)
    case Some(k) =>
      assert v == v[..k] + ":" + v[k + 1..];
      ChannelSetting(v[..k], Some(v[k + 1..]))
  }

  /** "name:password" with a short name reads back as that name and that password. */
  lemma ChannelValueRoundTrip(name: string, password: string)
    requires ':' !in name && |name| < MAX_CHANNELS_NAMELEN
    ensures ChannelValue(name + ":" + password) == ChannelSetting(name, Some(password))
  {
    var v := name + ":" + password;
    var buffer := Take(v, MAX_CHANNELS_NAMELEN);
    assert buffer[..|name|] == name;
    FindIsFirstOccurrence(buffer, ':', |name|);
    assert v[..|name|] == name && v[|name| + 1..] == password;
  }

  /** As written, "name:password" with a short name stores the name and an empty password. */
  lemma ChannelPasswordLostAsWritten(name: string, password: string)
    requires ':' !in name && |name| < MAX_CHANNELS_NAMELEN
    ensures ChannelValueAsWritten(name + ":" + password) == ChannelSetting(name, Some(""))
  {
    ChannelValueRoundTrip(name, password);
  }

  /** The channel names after the --channel values: slot i takes value i, the slots beyond keep theirs. */
  function NamesAfter(slots: seq<string>, values: seq<string>): (r: seq<string>)
    ensures |r| == |slots|
    ensures forall i :: 0 <= i < |slots| ==> r[i] == if i < |values| then ChannelValue(values[i]).name else slots[i]
  {
    seq(|slots|, i requires 0 <= i < |slots| => if i < |values| then ChannelValue(values[i]).name else slots[i])
  }

  /** The passwords after the --channel values: a value without password leaves its slot's password. */
  function PasswordsAfter(slots: seq<string>, values: seq<string>): (r: seq<string>)
    ensures |r| == |slots|
    ensures forall i :: 0 <= i < |slots| ==>
              r[i] == if i < |values| && ChannelValue(values[i]).password.Some? then ChannelValue(values[i]).password.value else slots[i]
  {
    seq(|slots|, i requires 0 <= i < |slots| =>
      if i < |values| && ChannelValue(values[i]).password.Some? then ChannelValue(values[i]).password.value else slots[i])
  }

  /*** Second pass ***/

  /** What argtable found for the options of the second pass; an absent option is None, false or []. */
  datatype Secondary = Secondary(
    silent: bool, verbose: bool, debug: bool,
    mode: Option<string>, port: Option<int>,
    server: Option<string>, serverpassword: Option<string>,
    botname: Option<string>, channels: seq<string>,
    showchannel: bool, shownick: bool, showjoins: bool,
    noninteractive: bool, keepreading: bool,
    timeout: Option<int>, lines: Option<int>)

  /**
   * The server password as written: the copy reads the --server value, and
   * argtable's empty default when --server was not given.
   */
  function ServerPasswordAsWritten(a: Secondary): (pw: Option<string>)
    ensures pw.Some? <==> a.serverpassword.Some?
    ensures pw.Some? ==> pw.value == if a.server.Some? then a.server.value else ""
  {
    if a.serverpassword.None? then None
    else match a.server case Some(s) => Some(s) case None => Some("")
  }

  /** As written, "-S host -P secret" stores the host name, not the secret, as the server password. */
  lemma ServerPasswordIsServerAsWritten(host: string, secret: string, a: Secondary)
    requires a.server == Some(host) && a.serverpassword == Some(secret) && host != secret
    ensures ServerPasswordAsWritten(a) == Some(host) && ServerPasswordAsWritten(a) != a.serverpassword
  {
  }

  /** Applying the --channel values one slot further extends NamesAfter and PasswordsAfter by one slot. */
  lemma ChannelStep(slots: seq<string>, pws: seq<string>, values: seq<string>, k: nat)
    requires k < |values| <= |slots| == |pws|
    ensures NamesAfter(slots, values[..k + 1]) == NamesAfter(slots, values[..k])[k := ChannelValue(values[k]).name]
    ensures PasswordsAfter(pws, values[..k + 1]) ==
              var c := ChannelValue(values[k]);
              if c.password.Some? then PasswordsAfter(pws, values[..k])[k := c.password.value] else PasswordsAfter(pws, values[..k])
  {
    assert values[..k + 1][k] == values[k];
    assert forall i :: 0 <= i < k ==> values[..k + 1][i] == values[..k][i];
  }

  /**
   * arg_parsesecondary, in the order the code takes the options: the
   * verbosity flags, the server and name values, the --channel values, then
   * the display and session flags. While the client is running, every
   * option given overrides its field and every option not given leaves it
   * alone (the ensures of the four steps); the pass answers 1 when the
   * --mode value names no mode, 0 otherwise. Nothing before the pass moves
   * the active slot off 0, so it lies inside any non-empty -C list and the
   * registry stays valid.
   */
  method ParseSecondary(o: Options, a: Secondary) returns (exitcode: int)
    requires o.Valid()
    requires |a.channels| <= MAX_CHANNELS
    requires o.running && a.channels != [] ==> o.current < |a.channels|
    modifies o`silent, o`verbose, o`debug, o`mode, o`port, o`server, o`serverpassword, o`botname
    modifies o`noChannels, o.channels, o.passwords
    modifies o`showchannel, o`shownick, o`showjoins, o`interactive, o`keepreading, o`connectionTimeout, o`maxlines
    ensures o.Valid()
    ensures exitcode == (if o.running && a.mode.Some? then ParseMode(a.mode.value).code else 0)
    ensures var given := o.running && a.channels != [];
            && o.noChannels == (if given then |a.channels| else old(o.noChannels))
            && o.channels[..] == (if given then NamesAfter(old(o.channels[..]), a.channels) else old(o.channels[..]))
            && o.passwords[..] == (if given then PasswordsAfter(old(o.passwords[..]), a.channels) else old(o.passwords[..]))
  {
    OverrideVerbosity(o, a);
    exitcode := OverrideServer(o, a);
    if a.channels != [] && o.running {
      SetChannels(o, a.channels);
    }
    OverrideDisplay(o, a);
  }

  /** -s, -v and -d: each sets its flag while running; debug implies verbose. */
  method OverrideVerbosity(o: Options, a: Secondary)
    modifies o`silent, o`verbose, o`debug
    ensures o.silent == (old(o.silent) || (o.running && a.silent))
    ensures o.verbose == (old(o.verbose) || (o.running && (a.verbose || a.debug)))
    ensures o.debug == (old(o.debug) || (o.running && a.debug))
  {
    if a.silent && o.running {
      o.silent := true;
    }
    if a.verbose && o.running {
      o.verbose := true;
    }
    if a.debug && o.running {
      o.debug := true;
      o.verbose := true;
    }
  }

  /** -m, -p, -S, -P and -n: each value given replaces its field while running. */
  method OverrideServer(o: Options, a: Secondary) returns (exitcode: int)
    modifies o`mode, o`port, o`server, o`serverpassword, o`botname
    ensures exitcode == (if o.running && a.mode.Some? then ParseMode(a.mode.value).code else 0)
    ensures o.mode == (if o.running && a.mode.Some? then ParseMode(a.mode.value).mode else old(o.mode))
    ensures o.port == (if o.running && a.port.Some? then a.port.value else old(o.port))
    ensures o.server == (if o.running && a.server.Some? then a.server.value else old(o.server))
    ensures o.serverpassword == (if o.running && a.serverpassword.Some? then a.serverpassword.value else old(o.serverpassword))
    ensures o.botname == (if o.running && a.botname.Some? then TruncateBotname(a.botname.value) else old(o.botname))
  {
    exitcode := 0;
    if a.mode.Some? && o.running {
      var setting := ParseMode(a.mode.value);
      o.mode := setting.mode;
      exitcode := setting.code;
    }
    if a.port.Some? && o.running {
      o.port := a.port.value;
    }
    if a.server.Some? && o.running {
      o.server := a.server.value;
    }
    if a.serverpassword.Some? && o.running {
      o.serverpassword := a.serverpassword.value;
    }
    if a.botname.Some? && o.running {
      o.botname := TruncateBotname(a.botname.value);
    }
  }

  /** -H, -N, -J, the non-interactive and keep-reading flags, -t and -l, while running. */
  method OverrideDisplay(o: Options, a: Secondary)
    modifies o`showchannel, o`shownick, o`showjoins, o`interactive, o`keepreading, o`connectionTimeout, o`maxlines
    ensures o.showchannel == (old(o.showchannel) || (o.running && a.showchannel))
    ensures o.shownick == (old(o.shownick) || (o.running && a.shownick))
    ensures o.showjoins == (old(o.showjoins) || (o.running && a.showjoins))
    ensures o.interactive == (old(o.interactive) && !(o.running && a.noninteractive))
    ensures o.keepreading == (old(o.keepreading) || (o.running && a.keepreading))
    ensures o.connectionTimeout == (if o.running && a.timeout.Some? then a.timeout.value else old(o.connectionTimeout))
    ensures o.maxlines == (if o.running && a.lines.Some? then a.lines.value else old(o.maxlines))
  {
    if a.showchannel && o.running {
      o.showchannel := true;
    }
    if a.shownick && o.running {
      o.shownick := true;
    }
    if a.showjoins && o.running {
      o.showjoins := true;
    }
    if a.noninteractive && o.running {
      o.interactive := false;
    }
    if a.keepreading && o.running {
      o.keepreading := true;
    }
    if a.timeout.Some? && o.running {
      o.connectionTimeout := a.timeout.value;
    }
    if a.lines.Some? && o.running {
      o.maxlines := a.lines.value;
    }
  }

  /** The --channel loop: the count becomes the number of values and slot i is set from value i. */
  method SetChannels(o: Options, values: seq<string>)
    requires o.Valid()
    requires 1 <= |values| <= MAX_CHANNELS
    requires o.current < |values|
    modifies o`noChannels, o.channels, o.passwords
    ensures o.Valid()
    ensures o.noChannels == |values|
    ensures o.channels[..] == NamesAfter(old(o.channels[..]), values)
    ensures o.passwords[..] == PasswordsAfter(old(o.passwords[..]), values)
  {
    o.noChannels := |values|;
    var counter := 0;
    while counter < o.noChannels
      invariant 0 <= counter <= o.noChannels == |values|
      invariant o.channels[..] == NamesAfter(old(o.channels[..]), values[..counter])
      invariant o.passwords[..] == PasswordsAfter(old(o.passwords[..]), values[..counter])
    {
      ChannelStep(old(o.channels[..]), old(o.passwords[..]), values, counter);
      var c := ChannelValue(values[counter]);
      o.channels[counter] := c.name;
      if c.password.Some? {
        o.passwords[counter] := c.password.value;
      }
      counter := counter + 1;
    }
    assert values[..counter] == values;
  }
}
