/**
 * The adapter between the client and the IRC library: the library session
 * as the client sees it, the join/part/send wrappers, the nickname-collision
 * handler for numeric reply 433 (ERR_NICKNAMEINUSE, section 6.1 of RFC 1459)
 * and the one-time callback table.
 */
module IrcMod {
  import opened CStrings
  import opened Options

  /** A request the client hands to the IRC library. */
  datatype Request =
    | Connect(nick: string)
    | Join(channel: string, password: string)
    | Part(channel: string)
    | Msg(target: string, text: string)

  /**
   * The library session: whether the library reports it connected, and the
   * requests made of it so far, in order. Whether a request reaches the
   * server is the library's business; its return codes are parameters.
   */
  class IrcSession {
    var connected: bool
    var requests: seq<Request>

    constructor (connected: bool)
      ensures this.connected == connected && requests == []
    {
      this.connected := connected;
      requests := [];
    }

    /** join_irc_channel: true exactly when irc_cmd_join returned 0. */
    method JoinChannel(channel: string, password: string, libResult: int) returns (ok: bool)
      modifies this`requests
      ensures requests == old(requests) + [Join(channel, password)]
      ensures ok <==> libResult == 0
    {
      requests := requests + [Join(channel, password)];
      ok := libResult == 0;
    }

    /** part_irc_channel: true exactly when irc_cmd_part returned 0. */
    method PartChannel(channel: string, libResult: int) returns (ok: bool)
      modifies this`requests
      ensures requests == old(requests) + [Part(channel)]
      ensures ok <==> libResult == 0
    {
      requests := requests + [Part(channel)];
      ok := libResult == 0;
    }

    /**
     * irc_send_raw_msg: on a connected session the message is handed to the
     * library and 0 is returned whatever the library answers; otherwise
     * nothing is sent and 1 is returned.
     */
    method SendRawMsg(message: string, channel: string) returns (rc: int)
      modifies this`requests
      ensures connected ==> rc == 0 && requests == old(requests) + [Msg(channel, message)]
      ensures !connected ==> rc == 1 && requests == old(requests)
    {
      if connected {
        requests := requests + [Msg(channel, message)];
        rc := 0;
      } else {
        rc := 1;
      }
    }

    /** create_irc_session: a fresh connection attempt under `nick`; the library decides whether it is connected. */
    method Reconnect(nick: string, nowConnected: bool) returns (isConnected: bool)
      modifies this
      ensures requests == old(requests) + [Connect(nick)]
      ensures connected == nowConnected && isConnected == nowConnected
    {
      requests := requests + [Connect(nick)];
      connected := nowConnected;
      isConnected := connected;
    }
  }

  // ----- nickname collision -----

  const ERR_NICKNAMEINUSE: int := 433
  /** The last counter value that still gives a retry. */
  const MAX_NICK_RETRY: nat := 0xF

  /** The part of `options` the collision handler reads and writes. */
  datatype NickState = NickState(name: string, nr: nat, running: bool)

  datatype NickOutcome = NickOutcome(state: NickState, reconnect: bool)

  /**
   * The handler writes the last character of the name; with a counter
   * between 1 and 14 and the client running, an empty name would make it
   * write before the buffer.
   */
  function RetryDefined(s: NickState): (ok: bool)
    ensures ok && s.running && 1 <= s.nr < MAX_NICK_RETRY ==> |s.name| >= 1
    ensures !s.running || s.name != [] ==> ok
  {
    !(s.running && 1 <= s.nr < MAX_NICK_RETRY && s.name == [])
  }

  /**
   * One 433 reply. With the counter at 0 the name first gets "_" (if at
   * most 6 long) and then "X" (if then at most 7 long; a longer name stops
   * the client). Then, while running and below 0xF, the last character
   * becomes the counter's hex digit, the counter goes up by one and a new
   * session is requested; at 0xF the client stops.
   */
  function OnNickInUse(s: NickState): (r: NickOutcome)
    requires RetryDefined(s)
    ensures RetryDefined(r.state)
    ensures r.reconnect <==> s.running && s.nr < MAX_NICK_RETRY && (s.nr != 0 || |s.name| <= MAX_BOT_NAMELEN - 1)
    ensures r.reconnect ==> r.state.running && r.state.nr == s.nr + 1
    ensures r.reconnect ==> r.state.name != [] && r.state.name[|r.state.name| - 1] == HexDigit(s.nr)
    ensures r.reconnect && s.nr != 0 ==>
              |r.state.name| == |s.name| && r.state.name[..|s.name| - 1] == s.name[..|s.name| - 1]
    ensures r.reconnect && s.nr == 0 ==>
              r.state.name == (if |s.name| <= MAX_BOT_NAMELEN - 2 then s.name + "_0" else s.name + "0")
    ensures !r.reconnect ==> !r.state.running && r.state.nr == s.nr
    ensures !r.reconnect && s.nr != 0 ==> r.state.name == s.name
  {
    var first :=
      if s.nr != 0 then s
      else
        var n1 := if |s.name| <= MAX_BOT_NAMELEN - 2 then s.name + "_" else s.name;
        if |n1| <= MAX_BOT_NAMELEN - 1 then s.(name := n1 + "X")
        else s.(name := n1, running := false);
    if !first.running then NickOutcome(first, false)
    else if first.nr < MAX_NICK_RETRY then
      var name := first.name[..|first.name| - 1] + [HexDigit(first.nr)];
      NickOutcome(NickState(name, first.nr + 1, true), true)
    else NickOutcome(first.(running := false), false)
  }

  /** The state after k consecutive 433 replies. */
  function Collide(s: NickState, k: nat): (r: NickState)
    requires RetryDefined(s)
    ensures RetryDefined(r)
  {
    if k == 0 then s else OnNickInUse(Collide(s, k - 1)).state
  }

  /** While the client keeps running the counter has gone up once per reply. */
  lemma {:induction false} CounterCountsCollisions(s: NickState, k: nat)
    requires RetryDefined(s)
    requires Collide(s, k).running
    ensures s.running && Collide(s, k).nr == s.nr + k
  {
    if k > 0 {
      var prev := Collide(s, k - 1);
      assert prev.running;
      CounterCountsCollisions(s, k - 1);
    }
  }

  /** Retrying ends: after 16 - nr replies the client has stopped, whatever the name. */
  lemma CollisionsTerminate(s: NickState, k: nat)
    requires RetryDefined(s)
    requires s.nr <= MAX_NICK_RETRY && k >= MAX_NICK_RETRY + 1 - s.nr
    ensures !Collide(s, k).running
  {
    if Collide(s, k).running {
      CounterCountsCollisions(s, k);
    }
  }

  /** After a retry the name ends in the digit of the counter value it used. */
  lemma {:induction false} RetriedNameEndsInDigit(s: NickState, k: nat)
    requires RetryDefined(s) && k >= 1
    requires Collide(s, k).running
    ensures Collide(s, k).nr >= 1 && Collide(s, k).nr <= MAX_NICK_RETRY
    ensures Collide(s, k).name != [] && Collide(s, k).name[|Collide(s, k).name| - 1] == HexDigit(Collide(s, k).nr - 1)
  {
    var prev := Collide(s, k - 1);
    assert OnNickInUse(prev).reconnect;
  }

  /** Every retry after the first proposes a name different from the one before. */
  lemma NameChangesOnEveryRetry(s: NickState, k: nat)
    requires RetryDefined(s) && k >= 1
    requires Collide(s, k + 1).running
    ensures Collide(s, k + 1).name != Collide(s, k).name
  {
    var a, b := Collide(s, k), Collide(s, k + 1);
    assert a.running;
    RetriedNameEndsInDigit(s, k);
    RetriedNameEndsInDigit(s, k + 1);
    assert b.nr == a.nr + 1;
    HexDigitInjective(a.nr - 1, b.nr - 1);
  }

  /** With the counter at 0, "omega" becomes "omega_0" and the counter 1. */
  lemma FirstCollisionOfOmega()
    ensures OnNickInUse(NickState("omega", 0, true)) == NickOutcome(NickState("omega_0", 1, true), true)
  {
  }

  /** From the start value 1, the k-th reply (k <= 14) renames "omega" to "omeg" + hex(k). */
  lemma {:induction false} OmegaRetries(k: nat)
    requires 1 <= k <= 14
    ensures Collide(NickState("omega", 1, true), k) == NickState("omeg" + [HexDigit(k)], k + 1, true)
  {
    var s := NickState("omega", 1, true);
    if k > 1 {
      OmegaRetries(k - 1);
      var prev := Collide(s, k - 1);
      assert prev.name[..|prev.name| - 1] == "omeg";
    } else {
      assert s.name[..|s.name| - 1] == "omeg";
    }
  }

  /** From the start value 1, the 15th reply stops the client with "omegE" and counter 15. */
  lemma OmegaGivesUpOnFifteenth()
    ensures Collide(NickState("omega", 1, true), 14).running
    ensures Collide(NickState("omega", 1, true), 15) == NickState("omegE", 15, false)
  {
    OmegaRetries(14);
  }

  /**
   * irc_general_event_numeric: only reply 433 is acted on; it rewrites the
   * bot name, the counter and `running` as OnNickInUse says and, on a
   * retry, starts a new session under the new name.
   */
  method NumericEvent(o: Options, irc: IrcSession, event: int, nowConnected: bool)
    requires RetryDefined(NickState(o.botname, o.botnameNr, o.running))
    modifies o`botname, o`botnameNr, o`running, irc
    ensures event != ERR_NICKNAMEINUSE ==>
              o.botname == old(o.botname) && o.botnameNr == old(o.botnameNr) && o.running == old(o.running)
              && irc.requests == old(irc.requests) && irc.connected == old(irc.connected)
    ensures event == ERR_NICKNAMEINUSE ==>
              var r := OnNickInUse(NickState(old(o.botname), old(o.botnameNr), old(o.running)));
              && NickState(o.botname, o.botnameNr, o.running) == r.state
              && irc.requests == old(irc.requests) + (if r.reconnect then [Connect(r.state.name)] else [])
              && irc.connected == (if r.reconnect then nowConnected else old(irc.connected))
  {
    if event == ERR_NICKNAMEINUSE {
      if o.botnameNr == 0 {
        if |o.botname| <= MAX_BOT_NAMELEN - 2 {
          o.botname := o.botname + "_";
        }
        if |o.botname| <= MAX_BOT_NAMELEN - 1 {
          o.botname := o.botname + "X";
        } else if |o.botname| >= MAX_BOT_NAMELEN {
          o.running := false;
        }
      }
      if o.running {
        if o.botnameNr < MAX_NICK_RETRY {
          o.botname := o.botname[..|o.botname| - 1] + [HexDigit(o.botnameNr)];
          o.botnameNr := o.botnameNr + 1;
          var _ := irc.Reconnect(o.botname, nowConnected);
        } else {
          o.running := false;
        }
      }
    }
  }

  // ----- callback table -----

  /** The events irc_callbacks_t has a slot for that the client fills. */
  datatype EventKind =
    | EvConnect | EvJoin | EvNick | EvQuit | EvPart | EvMode | EvTopic | EvKick
    | EvChannel | EvPrivmsg | EvNotice | EvInvite | EvUmode | EvCtcpRep | EvCtcpAction
    | EvUnknown | EvNumeric

  /** The handlers the client installs. */
  datatype Handler = GeneralEvent | NumericEventHandler | ServerConnect | ChannelCallback | ModeCallback

  /** What get_callback puts in a slot: the general logger, except numeric replies, which get the collision handler. */
  function DefaultHandler(e: EventKind): Handler {
    if e == EvNumeric then NumericEventHandler else GeneralEvent
  }

  /** The table get_callback builds on its first call: every event kind the client fills has its default handler. */
  function DefaultCallbacks(): (t: map<EventKind, Handler>)
    ensures forall e :: e in t && t[e] == DefaultHandler(e)
  {
    var t := map[EvConnect := GeneralEvent, EvJoin := GeneralEvent, EvNick := GeneralEvent, EvQuit := GeneralEvent,
                 EvPart := GeneralEvent, EvMode := GeneralEvent, EvTopic := GeneralEvent, EvKick := GeneralEvent,
                 EvChannel := GeneralEvent, EvPrivmsg := GeneralEvent, EvNotice := GeneralEvent, EvInvite := GeneralEvent,
                 EvUmode := GeneralEvent, EvCtcpRep := GeneralEvent, EvCtcpAction := GeneralEvent,
                 EvUnknown := GeneralEvent, EvNumeric := NumericEventHandler];
    EveryKindListed(t);
    t
  }

  lemma EveryKindListed(t: map<EventKind, Handler>)
    requires t == map[EvConnect := GeneralEvent, EvJoin := GeneralEvent, EvNick := GeneralEvent, EvQuit := GeneralEvent,
                      EvPart := GeneralEvent, EvMode := GeneralEvent, EvTopic := GeneralEvent, EvKick := GeneralEvent,
                      EvChannel := GeneralEvent, EvPrivmsg := GeneralEvent, EvNotice := GeneralEvent, EvInvite := GeneralEvent,
                      EvUmode := GeneralEvent, EvCtcpRep := GeneralEvent, EvCtcpAction := GeneralEvent,
                      EvUnknown := GeneralEvent, EvNumeric := NumericEventHandler]
    ensures forall e :: e in t && t[e] == DefaultHandler(e)
  {
    forall e: EventKind ensures e in t && t[e] == DefaultHandler(e) {
      match e
      case EvConnect => case EvJoin => case EvNick => case EvQuit => case EvPart => case EvMode =>
      case EvTopic => case EvKick => case EvChannel => case EvPrivmsg => case EvNotice => case EvInvite =>
      case EvUmode => case EvCtcpRep => case EvCtcpAction => case EvUnknown => case EvNumeric =>
    }
  }

  /** The static callback table and its `init_callbacks` flag. */
  class Callbacks {
    var initialised: bool
    var table: map<EventKind, Handler>

    constructor ()
      ensures !initialised && table == map[]
    {
      initialised := false;
      table := map[];
    }

    /** get_callback: fills the table on the first call only; later calls leave it, overrides included, as it was. */
    method GetCallback()
      modifies this
      ensures initialised
      ensures table == if old(initialised) then old(table) else DefaultCallbacks()
    {
      if !initialised {
        table := DefaultCallbacks();
        initialised := true;
      }
    }

    /** What prog_main does with the table: connect, channel and join get the client's own handlers. */
    method InstallMainHandlers()
      modifies this
      ensures initialised
      ensures table == (if old(initialised) then old(table) else DefaultCallbacks())
                         [EvConnect := ServerConnect][EvChannel := ChannelCallback][EvJoin := ModeCallback]
    {
      GetCallback();
      table := table[EvConnect := ServerConnect][EvChannel := ChannelCallback][EvJoin := ModeCallback];
    }
  }

  /**
   * A caller's view: once prog_main has overridden its handlers, a later
   * get_callback keeps them, and the slots it did not override keep their
   * defaults.
   */
  method OverridesSurviveLaterLookups() returns (connect: Handler, channel: Handler, join: Handler, numeric: Handler)
    ensures connect == ServerConnect && channel == ChannelCallback && join == ModeCallback
    ensures numeric == NumericEventHandler
  {
    var cb := new Callbacks();
    cb.InstallMainHandlers();
    cb.GetCallback();
    connect, channel, join, numeric := cb.table[EvConnect], cb.table[EvChannel], cb.table[EvJoin], cb.table[EvNumeric];
  }
}
