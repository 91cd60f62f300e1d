/**
 * The demo app's log buffer: newest entry first, at most 100 entries, and a set
 * of listeners that receive the whole buffer after every change.
 */
module LogManager {
  import opened Capped
  import opened Helpers

  datatype Level = D | I | W | E

  datatype LogEntry = LogEntry(timestamp: string, level: Level, message: string)

  /** The console stream each level is echoed to. */
  datatype Stream = Log | Warn | Error

  datatype ConsoleLine = ConsoleLine(stream: Stream, text: string)

  /** Listeners are opaque function identities. */
  type Listener = nat

  /** The stored message: `[tag] message`. */
  function Tagged(tag: string, message: string): (s: string)
    ensures |s| == |tag| + |message| + 3
    ensures s[0] == '[' && s[1..|tag| + 1] == tag && s[|tag| + 1..|tag| + 3] == "] "
    ensures s[|tag| + 3..] == message
  {
    "[" + tag + "] " + message
  }

  /** A tagged message is never confused with another: tag and message can be read back. */
  lemma TaggedInjective(t1: string, m1: string, t2: string, m2: string)
    requires |t1| == |t2|
    requires Tagged(t1, m1) == Tagged(t2, m2)
    ensures t1 == t2 && m1 == m2
  {
    var s := Tagged(t1, m1);
    assert t1 == s[1..|t1| + 1] == t2;
    assert m1 == s[|t1| + 3..] == m2;
  }

  class LogManager {
    var entries: seq<LogEntry>
    /** The listener set, in insertion order. */
    var listeners: seq<Listener>
    /** Every call made to a listener so far. */
    var delivered: seq<Delivery<Listener, seq<LogEntry>>>
    var console: seq<ConsoleLine>

    ghost predicate Valid()
      reads this
    {
      |entries| <= MaxEntries && Distinct(listeners)
    }

    constructor ()
      ensures Valid()
      ensures entries == [] && listeners == [] && delivered == [] && console == []
    {
      entries := [];
      listeners := [];
      delivered := [];
      console := [];
    }

    /** `subscribe(listener)`: joins the set (once) and receives the current entries at once. */
    method Subscribe(listener: Listener)
      requires Valid()
      modifies this
      ensures Valid()
      ensures listener in listeners
      ensures listeners == if listener in old(listeners) then old(listeners) else old(listeners) + [listener]
      ensures delivered == old(delivered) + [Delivery(listener, entries)]
      ensures entries == old(entries) && console == old(console)
    {
      if listener !in listeners {
        listeners := listeners + [listener];
      }
      delivered := delivered + [Delivery(listener, entries)];
    }

    /** The function `subscribe` returns: deletes exactly that listener from the set. */
    method Unsubscribe(listener: Listener)
      requires Valid()
      modifies this
      ensures Valid()
      ensures listener !in listeners
      ensures forall l :: l != listener ==> (l in listeners <==> l in old(listeners))
      ensures listeners == RemoveFirst(old(listeners), listener)
      ensures entries == old(entries) && delivered == old(delivered) && console == old(console)
    {
      RemoveFirstFromDistinct(listeners, listener);
      listeners := RemoveListener(listeners, listener);
    }

    /** `clear()`: empties the buffer and notifies every listener. */
    method Clear()
      requires Valid()
      modifies this
      ensures Valid()
      ensures entries == []
      ensures delivered == old(delivered) + Broadcast(listeners, [])
      ensures listeners == old(listeners) && console == old(console)
    {
      entries := [];
      Emit();
    }

    method Debug(tag: string, message: string, timestamp: string)
      requires Valid()
      modifies this
      ensures Valid()
      ensures entries == PrependCapped(LogEntry(timestamp, D, Tagged(tag, message)), old(entries))
      ensures delivered == old(delivered) + Broadcast(listeners, entries)
      ensures listeners == old(listeners)
      ensures console == old(console) + [ConsoleLine(Log, "[D]" + Tagged(tag, message))]
    {
      Append(D, Tagged(tag, message), timestamp);
      console := console + [ConsoleLine(Log, "[D]" + Tagged(tag, message))];
    }

    method Info(tag: string, message: string, timestamp: string)
      requires Valid()
      modifies this
      ensures Valid()
      ensures entries == PrependCapped(LogEntry(timestamp, I, Tagged(tag, message)), old(entries))
      ensures delivered == old(delivered) + Broadcast(listeners, entries)
      ensures listeners == old(listeners)
      ensures console == old(console) + [ConsoleLine(Log, "[I]" + Tagged(tag, message))]
    {
      Append(I, Tagged(tag, message), timestamp);
      console := console + [ConsoleLine(Log, "[I]" + Tagged(tag, message))];
    }

    method Warn(tag: string, message: string, timestamp: string)
      requires Valid()
      modifies this
      ensures Valid()
      ensures entries == PrependCapped(LogEntry(timestamp, W, Tagged(tag, message)), old(entries))
      ensures delivered == old(delivered) + Broadcast(listeners, entries)
      ensures listeners == old(listeners)
      ensures console == old(console) + [ConsoleLine(Stream.Warn, "[W]" + Tagged(tag, message))]
    {
      Append(W, Tagged(tag, message), timestamp);
      console := console + [ConsoleLine(Stream.Warn, "[W]" + Tagged(tag, message))];
    }

    method Error(tag: string, message: string, timestamp: string)
      requires Valid()
      modifies this
      ensures Valid()
      ensures entries == PrependCapped(LogEntry(timestamp, E, Tagged(tag, message)), old(entries))
      ensures delivered == old(delivered) + Broadcast(listeners, entries)
      ensures listeners == old(listeners)
      ensures console == old(console) + [ConsoleLine(Stream.Error, "[E]" + Tagged(tag, message))]
    {
      Append(E, Tagged(tag, message), timestamp);
      console := console + [ConsoleLine(Stream.Error, "[E]" + Tagged(tag, message))];
    }

    /**
     * `append(level, message)`: the new entry goes first and the buffer is cut to
     * 100, then every listener is notified.  The clock reading is a parameter.
     */
    method Append(level: Level, message: string, timestamp: string)
      requires Valid()
      modifies this
      ensures Valid()
      ensures entries == PrependCapped(LogEntry(timestamp, level, message), old(entries))
      ensures entries[0] == LogEntry(timestamp, level, message)
      ensures delivered == old(delivered) + Broadcast(listeners, entries)
      ensures listeners == old(listeners) && console == old(console)
    {
      PrependCappedShape(LogEntry(timestamp, level, message), entries);
      entries := PrependCapped(LogEntry(timestamp, level, message), entries);
      Emit();
    }

    /** `emit()`: calls every listener with the current entries, in set order. */
    method Emit()
      modifies this
      ensures delivered == old(delivered) + Broadcast(listeners, entries)
      ensures entries == old(entries) && listeners == old(listeners) && console == old(console)
    {
      ghost var before := delivered;
      for i := 0 to |listeners|
        invariant listeners == old(listeners) && entries == old(entries) && console == old(console)
        invariant delivered == before + Broadcast(listeners[..i], entries)
      {
        assert listeners[..i + 1][..i] == listeners[..i];
        delivered := delivered + [Delivery(listeners[i], entries)];
      }
      assert listeners[..|listeners|] == listeners;
    }
  }
}
