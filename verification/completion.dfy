/**
 * Tab completion of the interactive prompt: which generator a word gets,
 * and the two generators readline calls repeatedly, which share one
 * position in the list they walk.
 */
module Completion {
  import opened CStrings
  import opened Options
  import opened Commands

  /** Which generator irccmd_completion hands readline for a word. */
  datatype CompletionSource = CompleteCommands | CompleteChannels | NoCompletion

  function CompletionFor(text: string): (s: CompletionSource)
    ensures s == CompleteCommands <==> text != [] && text[0] == '/'
    ensures s == CompleteChannels <==> (text == [] || text[0] != '/') && '#' in text
  {
    if text != [] && text[0] == '/' then CompleteCommands
    else if Find(text, '#').Some? then CompleteChannels
    else NoCompletion
  }

  /** The names of the table entries, in table order. */
  function CommandNames(): (names: seq<string>)
    ensures |names| == |COMMANDS|
    ensures forall i :: 0 <= i < |names| ==> names[i] == COMMANDS[i].name
  {
    seq(|COMMANDS|, i requires 0 <= i < |COMMANDS| => COMMANDS[i].name)
  }

  /** The completion state readline's generators share: completion_index. */
  class Completer {
    var index: int

    constructor ()
      ensures index == 0
    {
      index := 0;
    }

    /**
     * command_generator: state 0 restarts at the first entry; each call
     * returns the next table name (from index on) that has the text as a
     * prefix, leaving index just past it. With no match the index ends one
     * past the table's terminating entry.
     */
    method CommandGenerator(text: string, state: int) returns (m: Option<string>)
      requires state == 0 || 0 <= index <= |COMMANDS|
      modifies this
      ensures var from := if state == 0 then 0 else old(index);
              var k := FirstFrom(CommandNames(), PrefixOf(text), from);
              && (k.Some? ==> m == Some(CommandNames()[k.value]) && index == k.value + 1)
              && (k.None? ==> m.None? && index == |COMMANDS| + 1)
    {
      if state == 0 {
        index := 0;
      }
      ghost var names := CommandNames();
      while index < |COMMANDS|
        invariant 0 <= index <= |COMMANDS|
        invariant FirstFrom(names, PrefixOf(text), if state == 0 then 0 else old(index)) == FirstFrom(names, PrefixOf(text), index)
        decreases |COMMANDS| - index
      {
        var candidate := COMMANDS[index].name;
        index := index + 1;
        if HasPrefix(candidate, text) {
          return Some(candidate);
        }
      }
      index := index + 1;
      return None;
    }

    /**
     * channel_generator: like CommandGenerator over all MAX_CHANNELS slots,
     * including slots not in use (which hold "" or a name whose join the
     * library refused).
     */
    method ChannelGenerator(o: Options, text: string, state: int) returns (m: Option<string>)
      requires o.Valid()
      requires state == 0 || 0 <= index
      modifies this
      ensures var from := if state == 0 then 0 else old(index);
              var k := FirstFrom(o.channels[..], PrefixOf(text), from);
              && (k.Some? ==> m == Some(o.channels[k.value]) && index == k.value + 1)
              && (k.None? ==> m.None? && index == if from <= MAX_CHANNELS then MAX_CHANNELS else from)
    {
      if state == 0 {
        index := 0;
      }
      ghost var from := index;
      while index < MAX_CHANNELS
        invariant from <= index
        invariant from <= MAX_CHANNELS ==> index <= MAX_CHANNELS
        invariant from > MAX_CHANNELS ==> index == from
        invariant FirstFrom(o.channels[..], PrefixOf(text), from) == FirstFrom(o.channels[..], PrefixOf(text), index)
        decreases MAX_CHANNELS - index
      {
        var candidate := o.channels[index];
        index := index + 1;
        if HasPrefix(candidate, text) {
          return Some(candidate);
        }
      }
      return None;
    }
  }
}
