/**
 * The slash-command table and its handlers. The handlers work on the
 * channel registry in `options`: a fixed array of MAX_CHANNELS slots of
 * which the first noChannels are in use, plus the active index.
 */
module Commands {
  import opened CStrings
  import opened Options
  import IrcMod

  /** The handler a table entry points at. */
  datatype CommandFn = HelpFn | ExitFn | JoinFn | ListFn | ChannelFn | LeaveFn

  /** One entry of `commands[]`: the name typed, the handler, its help text and whether it needs an argument. */
  datatype Command = Command(name: string, fn: CommandFn, doc: string, reqArgs: bool)

  const COMMANDS: seq<Command> := [
    Command("/help",    HelpFn,    "displays this help",                  false),
    Command("/exit",    ExitFn,    "quits the application",               false),
    Command("/quit",    ExitFn,    "quits the application",               false),
    Command("/join",    JoinFn,    "joins a given channel",               true),
    Command("/list",    ListFn,    "lists all joined channels",           false),
    Command("/channel", ChannelFn, "switch to channel",                   true),
    Command("/leave",   LeaveFn,   "leaves the current or given channel", false)
  ]

  /** No two entries of the table share a name, so a lookup by name is unambiguous. */
  lemma CommandNamesDistinct(i: nat, j: nat)
    requires i < j < |COMMANDS|
    ensures COMMANDS[i].name != COMMANDS[j].name
  {
  }

  /** The commands whose handlers read their argument are the ones the table marks as needing one. */
  lemma HandlersWithArgumentRequireIt(i: nat)
    requires i < |COMMANDS|
    ensures COMMANDS[i].fn == JoinFn || COMMANDS[i].fn == ChannelFn ==> COMMANDS[i].reqArgs
  {
  }

  /** No two slots in use hold the same channel (as strncmp over the name length sees it). */
  ghost predicate DistinctChannels(names: seq<string>) {
    forall i, j :: 0 <= i < j < |names| ==> !StrnEq(names[i], names[j], MAX_CHANNELS_NAMELEN)
  }

  /** The program name PROG_STRING stands for: the package name the build defines. */
  const PROG_STRING: string := "irccmd"

  /** The first line com_help shows. */
  const HELP_HEADER: string := "This is the commands overview of " + PROG_STRING

  /**
   * com_help, unless silent: a header naming the program and an empty
   * line, then one line per table entry in table order, then an empty line.
   * The lines are given without their newlines.
   */
  method ComHelp(o: Options) returns (ok: bool, shown: seq<string>)
    ensures ok
    ensures o.silent ==> shown == []
    ensures !o.silent ==> (|shown| == |COMMANDS| + 3
              && shown[0] == HELP_HEADER && shown[1] == "" && shown[|shown| - 1] == ""
              && forall i :: 0 <= i < |COMMANDS| ==> shown[i + 2] == COMMANDS[i].name + "\t\t" + COMMANDS[i].doc)
  {
    shown := if o.silent then [] else [HELP_HEADER, ""];
    var index := 0;
    while index < |COMMANDS|
      invariant 0 <= index <= |COMMANDS|
      invariant o.silent ==> shown == []
      invariant !o.silent ==> (|shown| == index + 2 && shown[0] == HELP_HEADER && shown[1] == ""
                  && forall i :: 0 <= i < index ==> shown[i + 2] == COMMANDS[i].name + "\t\t" + COMMANDS[i].doc)
    {
      if !o.silent {
        shown := shown + [COMMANDS[index].name + "\t\t" + COMMANDS[index].doc];
      }
      index := index + 1;
    }
    if !o.silent {
      shown := shown + [""];
    }
    ok := true;
  }

  /** com_exit (also /quit): only `running` changes. */
  method ComExit(o: Options) returns (ok: bool)
    modifies o`running
    ensures ok && !o.running
  {
    o.running := false;
    ok := true;
  }

  /** com_list, unless silent: the names of the channels in use, in slot order, then an empty line. */
  method ComList(o: Options) returns (ok: bool, shown: seq<string>)
    requires o.Valid()
    ensures ok
    ensures shown == if o.silent then [] else o.Names() + [""]
  {
    shown := [];
    var counter := 0;
    while counter < o.noChannels
      invariant 0 <= counter <= o.noChannels
      invariant shown == if o.silent then [] else o.channels[..counter]
    {
      if !o.silent {
        shown := shown + [o.channels[counter]];
      }
      counter := counter + 1;
    }
    if !o.silent {
      shown := shown + [""];
    }
    ok := true;
  }

  /** The registry search com_channel, com_join and com_leave share: the first slot in use whose name matches. */
  method FindChannel(o: Options, name: string) returns (k: Option<nat>)
    requires o.Valid()
    ensures k == FirstFrom(o.Names(), SameChannel(name), 0)
    ensures k.Some? ==> k.value < o.noChannels && StrnEq(o.channels[k.value], name, MAX_CHANNELS_NAMELEN)
    ensures k.None? ==> forall j :: 0 <= j < o.noChannels ==> !StrnEq(o.channels[j], name, MAX_CHANNELS_NAMELEN)
  {
    var counter := 0;
    while counter < o.noChannels
      invariant 0 <= counter <= o.noChannels
      invariant forall j :: 0 <= j < counter ==> !StrnEq(o.channels[j], name, MAX_CHANNELS_NAMELEN)
      invariant FirstFrom(o.Names(), SameChannel(name), 0) == FirstFrom(o.Names(), SameChannel(name), counter)
    {
      if StrnEq(o.channels[counter], name, MAX_CHANNELS_NAMELEN) {
        return Some(counter);
      }
      counter := counter + 1;
    }
    return None;
  }

  /** The registry after /channel: the first slot in use matching the argument becomes active; with no match nothing changes. */
  function AfterChannel(reg: Registry, arg: string): (r: Registry)
    requires reg.Valid()
    ensures r.Valid()
    ensures r.(current := reg.current) == reg
    ensures FirstFrom(reg.Names(), SameChannel(arg), 0).None? <==> r == reg && forall j :: 0 <= j < reg.count ==> !StrnEq(reg.channels[j], arg, MAX_CHANNELS_NAMELEN)
    ensures FirstFrom(reg.Names(), SameChannel(arg), 0).Some? ==>
              && StrnEq(r.channels[r.current], arg, MAX_CHANNELS_NAMELEN)
              && forall j :: 0 <= j < r.current ==> !StrnEq(reg.channels[j], arg, MAX_CHANNELS_NAMELEN)
  {
    match FirstFrom(reg.Names(), SameChannel(arg), 0)
    case None => reg
    case Some(k) => reg.(current := k)
  }

  /** com_channel: switches the active slot as AfterChannel says; nothing else changes. */
  method ComChannel(o: Options, arg: string) returns (ok: bool)
    requires o.Valid()
    modifies o`current
    ensures o.Valid() && ok
    ensures o.Slots() == AfterChannel(old(o.Slots()), arg)
  {
    var k := FindChannel(o, arg);
    if k.Some? {
      o.current := k.value;
    }
    return true;
  }

  /** The argument of /join split at its first space: the channel before it, the password after it (empty without a space). */
  function SplitJoinArgument(arg: string): (r: (string, string))
    ensures ' ' !in r.0
    ensures ' ' in arg ==> arg == r.0 + " " + r.1
    ensures ' ' !in arg ==> r == (arg, "")
  {
    match Find(arg, ' ')
    case None => (arg, "")
    case Some(k) =>
      assert arg == arg[..k] + " " + arg[k + 1..];
      (arg[..k], arg[k + 1..])
  }

  /**
   * The registry after /join: a channel already in use, or a full registry,
   * changes nothing. Otherwise the channel (cut to the slot size) and its
   * password go into the first free slot; only when the library accepts the
   * join (libResult == 0) does the slot come into use and become active.
   */
  function AfterJoin(reg: Registry, arg: string, libResult: int): (r: Registry)
    requires reg.Valid()
    ensures r.Valid()
    ensures reg.count == MAX_CHANNELS ==> r == reg
    ensures libResult != 0 ==> r.count == reg.count && r.current == reg.current && r.Names() == reg.Names()
    ensures libResult == 0 && r != reg ==> r.count == reg.count + 1 && r.current == reg.count
    ensures r != reg ==> && reg.count < MAX_CHANNELS
                         && r.channels[reg.count] == Take(SplitJoinArgument(arg).0, MAX_CHANNELS_NAMELEN)
                         && r.passwords[reg.count] == SplitJoinArgument(arg).1
    ensures forall i :: 0 <= i < MAX_CHANNELS && i != reg.count ==>
              r.channels[i] == reg.channels[i] && r.passwords[i] == reg.passwords[i]
  {
    var (name, pw) := SplitJoinArgument(arg);
    var n := reg.count;
    if FirstFrom(reg.Names(), SameChannel(name), 0).Some? || n == MAX_CHANNELS then reg
    else
      Registry(reg.channels[n := Take(name, MAX_CHANNELS_NAMELEN)], reg.passwords[n := pw],
               if libResult == 0 then n + 1 else n,
               if libResult == 0 then n else reg.current)
  }

  /** The requests /join hands the library: one join for a new channel when a slot is free, none otherwise. */
  function JoinRequests(reg: Registry, arg: string): (rs: seq<IrcMod.Request>)
    requires reg.Valid()
    ensures |rs| <= 1
    ensures rs != [] <==> AfterJoin(reg, arg, 0) != reg
  {
    var (name, pw) := SplitJoinArgument(arg);
    if FirstFrom(reg.Names(), SameChannel(name), 0).Some? || reg.count == MAX_CHANNELS then []
    else
      assert AfterJoin(reg, arg, 0).count != reg.count;
      [IrcMod.Join(Take(name, MAX_CHANNELS_NAMELEN), pw)]
  }

  /** com_join: updates the registry as AfterJoin says and issues JoinRequests. */
  method ComJoin(o: Options, irc: IrcMod.IrcSession, arg: string, libResult: int) returns (ok: bool)
    requires o.Valid()
    modifies o`noChannels, o`current, o.channels, o.passwords, irc`requests
    ensures o.Valid() && ok
    ensures o.Slots() == AfterJoin(old(o.Slots()), arg, libResult)
    ensures irc.requests == old(irc.requests) + JoinRequests(old(o.Slots()), arg)
  {
    ghost var reg := o.Slots();
    var (name, pw) := SplitJoinArgument(arg);
    var known := FindChannel(o, name);
    if known.Some? {
      return true;
    }
    if o.noChannels >= MAX_CHANNELS {
      return true;
    }
    var index := o.noChannels;
    var stored := Take(name, MAX_CHANNELS_NAMELEN);
    o.channels[index] := stored;
    o.passwords[index] := pw;
    var joined := irc.JoinChannel(stored, pw, libResult);
    if joined {
      o.noChannels := index + 1;
      o.current := index;
    }
    assert o.channels[..] == reg.channels[index := stored];
    assert o.passwords[..] == reg.passwords[index := pw];
    return true;
  }

  /**
   * A join the library accepts makes the new channel active under its
   * stored name, keeps the slots in use that were there, and keeps the
   * channels in use distinct.
   */
  lemma JoinAddsDistinctChannel(reg: Registry, arg: string)
    requires reg.Valid() && DistinctChannels(reg.Names())
    requires reg.count < MAX_CHANNELS
    requires FirstFrom(reg.Names(), SameChannel(SplitJoinArgument(arg).0), 0).None?
    ensures var r := AfterJoin(reg, arg, 0);
            && r.Names() == reg.Names() + [Take(SplitJoinArgument(arg).0, MAX_CHANNELS_NAMELEN)]
            && r.current == reg.count
            && DistinctChannels(r.Names())
  {
    var name := SplitJoinArgument(arg).0;
    var r := AfterJoin(reg, arg, 0);
    assert r.Names() == reg.Names() + [Take(name, MAX_CHANNELS_NAMELEN)];
    JoinKeepsChannelsDistinct(reg.Names(), name);
  }

  /** Joining a channel already in use changes nothing, whatever the library would answer. */
  lemma JoinOfKnownChannelChangesNothing(reg: Registry, arg: string, libResult: int)
    requires reg.Valid()
    requires exists k :: 0 <= k < reg.count && StrnEq(reg.channels[k], SplitJoinArgument(arg).0, MAX_CHANNELS_NAMELEN)
    ensures AfterJoin(reg, arg, libResult) == reg && JoinRequests(reg, arg) == []
  {
    var name := SplitJoinArgument(arg).0;
    var k :| 0 <= k < reg.count && StrnEq(reg.channels[k], name, MAX_CHANNELS_NAMELEN);
    assert SameChannel(name)(reg.Names()[k]);
  }

  /**
   * Whatever the other names are, a name no slot in use matches is joined
   * when a slot is free and the library accepts: it is appended under its
   * stored name, made active, and one join request is made for it.
   */
  lemma NewChannelIsJoined(reg: Registry, arg: string)
    requires reg.Valid() && reg.count < MAX_CHANNELS
    requires FirstFrom(reg.Names(), SameChannel(SplitJoinArgument(arg).0), 0).None?
    ensures var (name, pw) := SplitJoinArgument(arg);
            var r := AfterJoin(reg, arg, 0);
            && r.Names() == reg.Names() + [Take(name, MAX_CHANNELS_NAMELEN)]
            && r.current == reg.count
            && JoinRequests(reg, arg) == [IrcMod.Join(Take(name, MAX_CHANNELS_NAMELEN), pw)]
  {
    var name := SplitJoinArgument(arg).0;
    var r := AfterJoin(reg, arg, 0);
    assert r.Names() == reg.Names() + [Take(name, MAX_CHANNELS_NAMELEN)];
  }

  /** A full registry refuses every join: nothing changes and the library is not asked. */
  lemma JoinIntoFullRegistryChangesNothing(reg: Registry, arg: string, libResult: int)
    requires reg.Valid() && reg.count == MAX_CHANNELS
    ensures AfterJoin(reg, arg, libResult) == reg && JoinRequests(reg, arg) == []
  {
  }

  /**
   * A join the library refuses leaves the channels in use and the active
   * one as they were; only the first free slot, which stays out of use,
   * may have received the name and password.
   */
  lemma RefusedJoinKeepsCountAndActive(reg: Registry, arg: string, libResult: int)
    requires reg.Valid() && libResult != 0
    ensures var r := AfterJoin(reg, arg, libResult);
            && r.count == reg.count && r.current == reg.current && r.Names() == reg.Names()
            && forall i :: 0 <= i < MAX_CHANNELS && i != reg.count ==>
                 r.channels[i] == reg.channels[i] && r.passwords[i] == reg.passwords[i]
  {
  }

  /** A successful join keeps the channels in use distinct. */
  lemma JoinKeepsChannelsDistinct(names: seq<string>, name: string)
    requires DistinctChannels(names)
    requires FirstFrom(names, SameChannel(name), 0).None?
    ensures DistinctChannels(names + [Take(name, MAX_CHANNELS_NAMELEN)])
  {
    var ext := names + [Take(name, MAX_CHANNELS_NAMELEN)];
    forall i, j | 0 <= i < j < |ext|
      ensures !StrnEq(ext[i], ext[j], MAX_CHANNELS_NAMELEN)
    {
      if j == |names| {
        assert !SameChannel(name)(names[i]);
      }
    }
  }

  /** The slot /leave removes: the first slot matching a non-empty argument, else the active one. */
  function LeaveTarget(names: seq<string>, current: nat, arg: Option<string>): (t: nat)
    requires current < |names|
    ensures t < |names|
    ensures arg.Some? && arg.value != [] && (exists k :: 0 <= k < |names| && StrnEq(names[k], arg.value, MAX_CHANNELS_NAMELEN)) ==>
              StrnEq(names[t], arg.value, MAX_CHANNELS_NAMELEN)
              && forall j :: 0 <= j < t ==> !StrnEq(names[j], arg.value, MAX_CHANNELS_NAMELEN)
    ensures !(arg.Some? && arg.value != [] && (exists k :: 0 <= k < |names| && StrnEq(names[k], arg.value, MAX_CHANNELS_NAMELEN))) ==>
              t == current
  {
    if arg.Some? && arg.value != [] then
      match FirstFrom(names, SameChannel(arg.value), 0)
      case Some(k) => k
      case None =>
        assert forall k :: 0 <= k < |names| ==> !SameChannel(arg.value)(names[k]);
        current
    else current
  }

  /** Removal by moving the last element into the removed slot. */
  function SwapRemove<T>(s: seq<T>, t: nat): (r: seq<T>)
    requires t < |s|
    ensures |r| == |s| - 1
    ensures t < |r| ==> r[t] == s[|s| - 1]
    ensures forall i :: 0 <= i < |r| && i != t ==> r[i] == s[i]
  {
    s[t := s[|s| - 1]][..|s| - 1]
  }

  /** Swap-removal takes exactly the removed element out of the collection. */
  lemma SwapRemoveDropsOne<T>(s: seq<T>, t: nat)
    requires t < |s|
    ensures multiset(SwapRemove(s, t)) + multiset{s[t]} == multiset(s)
  {
    var n := |s|;
    var r := SwapRemove(s, t);
    if t == n - 1 {
      assert r == s[..n - 1];
      assert s == s[..n - 1] + [s[n - 1]];
    } else {
      assert r == s[..t] + [s[n - 1]] + s[t + 1..n - 1];
      assert s == s[..t] + [s[t]] + s[t + 1..n - 1] + [s[n - 1]];
    }
  }

  /** Swap-removal keeps the remaining channels distinct and the removed one is gone. */
  lemma SwapRemoveKeepsDistinct(names: seq<string>, t: nat)
    requires t < |names| && DistinctChannels(names)
    ensures DistinctChannels(SwapRemove(names, t))
    ensures forall i :: 0 <= i < |names| - 1 ==> !StrnEq(SwapRemove(names, t)[i], names[t], MAX_CHANNELS_NAMELEN)
  {
    var r := SwapRemove(names, t);
    var n := |names|;
    forall i, j | 0 <= i < j < |r|
      ensures !StrnEq(r[i], r[j], MAX_CHANNELS_NAMELEN)
    {
      var i', j' := if i == t then n - 1 else i, if j == t then n - 1 else j;
      assert r[i] == names[i'] && r[j] == names[j'] && i' != j';
      if i' > j' {
        assert !StrnEq(names[j'], names[i'], MAX_CHANNELS_NAMELEN);
      }
    }
    forall i | 0 <= i < n - 1
      ensures !StrnEq(r[i], names[t], MAX_CHANNELS_NAMELEN)
    {
      var i' := if i == t then n - 1 else i;
      assert r[i] == names[i'] && i' != t;
      if i' > t {
        assert !StrnEq(names[t], names[i'], MAX_CHANNELS_NAMELEN);
      }
    }
  }

  /** Overwriting slot t with the last slot and clearing the last slot swap-removes t from the slots in use. */
  lemma {:induction false} ClearedSlotsAreSwapRemoval(slots: seq<string>, n: nat, t: nat)
    requires t < n <= |slots|
    ensures slots[t := slots[n - 1]][n - 1 := ""][..n - 1] == SwapRemove(slots[..n], t)
  {
    var lhs := slots[t := slots[n - 1]][n - 1 := ""][..n - 1];
    var rhs := SwapRemove(slots[..n], t);
    assert |lhs| == |rhs|;
    forall i | 0 <= i < n - 1
      ensures lhs[i] == rhs[i]
    {
    }
  }

  /**
   * The registry with slot t removed: slot t receives the last slot's name
   * and password (the password through a MAX_CHANNELS_NAMELEN-sized
   * strncpy), the last slot is cleared, the count drops by one and slot 0
   * becomes active.
   */
  function RemovedAt(reg: Registry, t: nat): (r: Registry)
    requires reg.Valid() && reg.count > 1 && t < reg.count
    ensures r.Valid() && r.count == reg.count - 1 && r.current == 0
    ensures r.Names() == SwapRemove(reg.Names(), t)
    ensures t < reg.count - 1 ==> r.passwords[t] == Take(reg.passwords[reg.count - 1], MAX_CHANNELS_NAMELEN)
    ensures r.channels[reg.count - 1] == "" && r.passwords[reg.count - 1] == ""
    ensures forall i :: 0 <= i < MAX_CHANNELS && i != t && i != reg.count - 1 ==>
              r.channels[i] == reg.channels[i] && r.passwords[i] == reg.passwords[i]
  {
    var n := reg.count;
    ClearedSlotsAreSwapRemoval(reg.channels, n, t);
    Registry(reg.channels[t := reg.channels[n - 1]][n - 1 := ""],
             reg.passwords[t := Take(reg.passwords[n - 1], MAX_CHANNELS_NAMELEN)][n - 1 := ""],
             n - 1, 0)
  }

  /** The registry after /leave: with one channel in use nothing changes, otherwise the LeaveTarget slot is removed. */
  function AfterLeave(reg: Registry, arg: Option<string>): (r: Registry)
    requires reg.Valid()
    ensures r.Valid()
    ensures reg.count == 1 ==> r == reg
    ensures reg.count > 1 ==> (r.count == reg.count - 1 && r.current == 0
              && r.Names() == SwapRemove(reg.Names(), LeaveTarget(reg.Names(), reg.current, arg)))
    ensures var t := LeaveTarget(reg.Names(), reg.current, arg);
            reg.count > 1 ==>
              && (t < reg.count - 1 ==> r.passwords[t] == Take(reg.passwords[reg.count - 1], MAX_CHANNELS_NAMELEN))
              && r.channels[reg.count - 1] == "" && r.passwords[reg.count - 1] == ""
              && forall i :: 0 <= i < MAX_CHANNELS && i != t && i != reg.count - 1 ==>
                   r.channels[i] == reg.channels[i] && r.passwords[i] == reg.passwords[i]
  {
    if reg.count == 1 then reg
    else RemovedAt(reg, LeaveTarget(reg.Names(), reg.current, arg))
  }

  /** The requests /leave hands the library: a part of the target channel, unless it is the last one in use. */
  function LeaveRequests(reg: Registry, arg: Option<string>): (rs: seq<IrcMod.Request>)
    requires reg.Valid()
    ensures reg.count == 1 <==> rs == []
    ensures reg.count > 1 ==> rs == [IrcMod.Part(reg.Names()[LeaveTarget(reg.Names(), reg.current, arg)])]
  {
    if reg.count == 1 then []
    else [IrcMod.Part(reg.channels[LeaveTarget(reg.Names(), reg.current, arg)])]
  }

  /** Leaving keeps the channels in use distinct and takes exactly the parted channel out of them. */
  lemma LeaveRemovesParted(reg: Registry, arg: Option<string>)
    requires reg.Valid() && reg.count > 1 && DistinctChannels(reg.Names())
    ensures var t := LeaveTarget(reg.Names(), reg.current, arg);
            var r := AfterLeave(reg, arg);
            && DistinctChannels(r.Names())
            && multiset(r.Names()) + multiset{reg.Names()[t]} == multiset(reg.Names())
            && forall i :: 0 <= i < r.count ==> !StrnEq(r.Names()[i], reg.Names()[t], MAX_CHANNELS_NAMELEN)
  {
    var t := LeaveTarget(reg.Names(), reg.current, arg);
    SwapRemoveKeepsDistinct(reg.Names(), t);
    SwapRemoveDropsOne(reg.Names(), t);
  }

  /** The copy-and-clear half of com_leave: removes slot t as RemovedAt says. */
  method RemoveSlot(o: Options, t: nat)
    requires o.Valid() && t < o.noChannels && o.noChannels > 1
    modifies o`noChannels, o`current, o.channels, o.passwords
    ensures o.Valid()
    ensures o.Slots() == RemovedAt(old(o.Slots()), t)
  {
    ghost var reg := o.Slots();
    var lc := o.noChannels - 1;
    if t < lc {
      o.channels[t] := o.channels[lc];
      o.passwords[t] := "";
      if |o.passwords[lc]| > 0 {
        o.passwords[t] := Take(o.passwords[lc], MAX_CHANNELS_NAMELEN);
      }
    }
    o.channels[lc] := "";
    o.passwords[lc] := "";
    o.noChannels := lc;
    o.current := 0;
    assert o.channels[..] == reg.channels[t := reg.channels[lc]][lc := ""];
    assert o.passwords[..] == reg.passwords[t := Take(reg.passwords[lc], MAX_CHANNELS_NAMELEN)][lc := ""];
  }

  /**
   * com_leave: a non-empty argument naming a channel in use makes it the
   * active one; then the registry changes as AfterLeave says and the
   * library is asked for LeaveRequests.
   */
  method ComLeave(o: Options, irc: IrcMod.IrcSession, arg: Option<string>, libResult: int) returns (ok: bool)
    requires o.Valid()
    modifies o`noChannels, o`current, o.channels, o.passwords, irc`requests
    ensures o.Valid() && ok
    ensures o.Slots() == AfterLeave(old(o.Slots()), arg)
    ensures irc.requests == old(irc.requests) + LeaveRequests(old(o.Slots()), arg)
  {
    ghost var reg := o.Slots();
    SelectLeaveTarget(o, arg);
    if o.noChannels == 1 {
      return true;
    }
    var t := o.current;
    var _ := irc.PartChannel(o.channels[t], libResult);
    RemoveSlot(o, t);
    assert RemovedAt(reg.(current := t), t) == RemovedAt(reg, t);
    return true;
  }

  /** The search half of com_leave: a named channel in use becomes the active one. */
  method SelectLeaveTarget(o: Options, arg: Option<string>)
    requires o.Valid()
    modifies o`current
    ensures o.Valid()
    ensures o.Slots() == old(o.Slots()).(current := LeaveTarget(old(o.Names()), old(o.current), arg))
  {
    if arg.Some? && |arg.value| > 0 {
      var k := FindChannel(o, arg.value);
      if k.Some? {
        o.current := k.value;
      }
    }
  }
}
