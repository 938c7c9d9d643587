/**
 * The event log panel: entries tagged with the side that produced them
 * ("client", "server", "webrtc", ...) and the source-filter drop-down.
 */
module EventLogger {
  import opened Common

  /** One log entry; the JSON payload and timestamp are not modelled. */
  datatype LogEntry = LogEntry(source: string, eventType: string)

  /** The filter predicate of `filteredEvents`, one branch per drop-down value. */
  predicate Shown(filter: string, e: LogEntry)
  {
    if filter == "all" then true
    else if filter == "client" then e.source == "client"
    else if filter == "server" then e.source == "server"
    else true
  }

  /** `events.filter(...)`: the entries the panel lists. */
  function Filtered(events: seq<LogEntry>, filter: string): (r: seq<LogEntry>)
    ensures |r| <= |events|
    ensures forall e :: e in r ==> e in events && Shown(filter, e)
  {
    if events == [] then []
    else (if Shown(filter, events[0]) then [events[0]] else []) + Filtered(events[1..], filter)
  }

  /** "all", and any value other than "client" and "server", list every entry unchanged. */
  lemma {:induction false} FilterAllIsIdentity(events: seq<LogEntry>, filter: string)
    requires filter != "client" && filter != "server"
    ensures Filtered(events, filter) == events
  {
    if events != [] {
      FilterAllIsIdentity(events[1..], filter);
      assert events == [events[0]] + events[1..];
    }
  }

  /** The listed entries are the input with some entries dropped, the rest in
      their original order, and every shown entry kept as often as it occurs. */
  lemma {:induction false} FilterKeepsExactly(events: seq<LogEntry>, filter: string)
    ensures IsSubsequence(Filtered(events, filter), events)
    ensures forall e :: Shown(filter, e) ==> multiset(Filtered(events, filter))[e] == multiset(events)[e]
    ensures forall e :: !Shown(filter, e) ==> multiset(Filtered(events, filter))[e] == 0
  {
    if events != [] {
      var rest := Filtered(events[1..], filter);
      FilterKeepsExactly(events[1..], filter);
      assert events == [events[0]] + events[1..];
      if Shown(filter, events[0]) {
        assert Filtered(events, filter) == [events[0]] + rest;
        assert Filtered(events, filter)[1..] == rest;
      } else {
        assert Filtered(events, filter) == rest;
      }
    }
  }

  /** "client" and "server" each list exactly the entries from that source, in order. */
  lemma SourceFilter(events: seq<LogEntry>, source: string)
    requires source == "client" || source == "server"
    ensures IsSubsequence(Filtered(events, source), events)
    ensures forall e :: e in Filtered(events, source) ==> e.source == source
    ensures forall e: LogEntry :: e.source == source ==> multiset(Filtered(events, source))[e] == multiset(events)[e]
  {
    FilterKeepsExactly(events, source);
  }

  /** Filtering twice with the same value is filtering once. */
  lemma {:induction false} FilterIdempotent(events: seq<LogEntry>, filter: string)
    ensures Filtered(Filtered(events, filter), filter) == Filtered(events, filter)
  {
    if events != [] {
      FilterIdempotent(events[1..], filter);
      var rest := Filtered(events[1..], filter);
      var once := Filtered(events, filter);
      if Shown(filter, events[0]) {
        assert once == [events[0]] + rest;
        assert once[0] == events[0] && once[1..] == rest;
      } else {
        assert once == rest;
      }
    }
  }

  /** An entry from any other source (such as "webrtc") is listed only under
      "all" or an unknown filter value. */
  lemma OtherSourcesOnlyUnfiltered(events: seq<LogEntry>, filter: string, e: LogEntry)
    requires e.source != "client" && e.source != "server"
    requires e in Filtered(events, filter)
    ensures filter != "client" && filter != "server"
  {
  }
}
