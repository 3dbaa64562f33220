/**
 * The global `options` record every part of the client reads and writes:
 * the channel registry (a fixed array of MAX_CHANNELS names and passwords,
 * the count in use and the active index), the session flags and the bot
 * name with its collision counter.
 */
module Options {
  import opened CStrings

  const MAX_CHANNELS: nat := 20
  const MAX_CHANNELS_NAMELEN: nat := 20
  const MAX_BOT_NAMELEN: nat := 8

  /** enum modes: bit 0 is input, bit 1 is output. */
  newtype Mode = x: int | 0 <= x < 4

  const NONE: Mode := 0
  const INPUT: Mode := 1
  const OUTPUT: Mode := 2
  const BOTH: Mode := 3

  /** (mode & input) > 0 */
  predicate HasInput(m: Mode) {
    (m as bv2) & (INPUT as bv2) != 0
  }

  /** (mode & output) > 0 */
  predicate HasOutput(m: Mode) {
    (m as bv2) & (OUTPUT as bv2) != 0
  }

  /** The mode bits name the modes the enum gives them. */
  lemma ModeBits(m: Mode)
    ensures HasInput(m) <==> m == INPUT || m == BOTH
    ensures HasOutput(m) <==> m == OUTPUT || m == BOTH
  {
  }

  /** Two registry names are the same channel when strncmp over MAX_CHANNELS_NAMELEN finds them equal. */
  function SameChannel(name: string): string -> bool {
    s => StrnEq(s, name, MAX_CHANNELS_NAMELEN)
  }

  /**
   * The channel registry as a value: the slot contents of both arrays, the
   * number of slots in use and the active slot.
   */
  datatype Registry = Registry(channels: seq<string>, passwords: seq<string>, count: int, current: int)
  {
    ghost predicate Valid() {
      && |channels| == MAX_CHANNELS && |passwords| == MAX_CHANNELS
      && 1 <= count <= MAX_CHANNELS && 0 <= current < count
    }

    /** The names of the channels in use, in slot order. */
    function Names(): (names: seq<string>)
      requires Valid()
      ensures |names| == count
    {
      channels[..count]
    }
  }

  /** The prompt text "<botname>@<channel>: ": the name, an '@', the channel and a colon and space. */
  function PromptText(botname: string, channel: string): (p: string)
    ensures |p| == |botname| + |channel| + 3
    ensures p[..|botname|] == botname && p[|botname|] == '@'
    ensures p[|botname| + 1..|botname| + 1 + |channel|] == channel && p[|p| - 2..] == ": "
  {
    var p := botname + "@" + channel + ": ";
    assert p == botname + ("@" + (channel + ": "));
    p
  }

  class Options {
    var running: bool
    var connected: bool
    var configfile: string
    var mode: Mode
    var verbose: bool
    var debug: bool
    var silent: bool
    var showchannel: bool
    var shownick: bool
    var showjoins: bool
    var interactive: bool
    var keepreading: bool
    var port: int
    var server: string
    var serverpassword: string
    var botname: string
    var botnameNr: nat
    var connectionTimeout: int
    var maxlines: int

    /** The registry: slots 0 .. noChannels-1 are the channels in use. */
    var noChannels: int
    var current: int
    const channels: array<string>
    const passwords: array<string>

    ghost predicate Valid()
      reads this
    {
      && channels.Length == MAX_CHANNELS
      && passwords.Length == MAX_CHANNELS
      && channels != passwords
      && 1 <= noChannels <= MAX_CHANNELS
      && 0 <= current < noChannels
    }

    /** The names of the channels in use, in slot order. */
    function Names(): (names: seq<string>)
      reads this, channels
      requires Valid()
      ensures |names| == noChannels
    {
      channels[..noChannels]
    }

    /** The registry part of the record, as a value. */
    function Slots(): (r: Registry)
      reads this, channels, passwords
      ensures Valid() ==> r.Valid() && r.Names() == Names()
    {
      Registry(channels[..], passwords[..], noChannels, current)
    }

    /** The passwords of the channels in use, in slot order. */
    function Passwords(): (pws: seq<string>)
      reads this, passwords
      requires Valid()
      ensures |pws| == noChannels
    {
      passwords[..noChannels]
    }

    /** The static initialiser of `options`; every field it does not name is zero. */
    constructor ()
      ensures Valid() && fresh(channels) && fresh(passwords)
      ensures !running && !connected && !interactive && !keepreading
      ensures !silent && !debug && !verbose && !showchannel && !shownick && !showjoins
      ensures mode == BOTH && port == 6667 && server == "irc.incas3.nl" && serverpassword == ""
      ensures Names() == ["#spam"] && Passwords() == [""] && current == 0
      ensures botname == "omega" && botnameNr == 1
      ensures configfile == "~/.irccmd.cnf" && connectionTimeout == 0 && maxlines == 0
    {
      running, connected, interactive, keepreading := false, false, false, false;
      silent, debug, verbose := false, false, false;
      showchannel, shownick, showjoins := false, false, false;
      configfile := "~/.irccmd.cnf";
      mode, port := BOTH, 6667;
      server, serverpassword := "irc.incas3.nl", "";
      botname, botnameNr := "omega", 1;
      connectionTimeout, maxlines := 0, 0;
      noChannels, current := 1, 0;
      channels := new string[MAX_CHANNELS](i => if i == 0 then "#spam" else "");
      passwords := new string[MAX_CHANNELS](i => "");
    }
  }
}
