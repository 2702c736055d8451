/**
 * The key-state table `keys` and the two keyboard handlers that update it.
 * A handler lowercases `event.key` and writes the entry only when the table
 * already has that name; every other key is ignored.
 */
module Input {
  import opened Options

  type KeyTable = map<string, bool>

  /** The names the table is created with. */
  const Tracked: set<string> := {"w", "s", "a", "d"}

  /** The table as it is created: all four movement keys released. */
  function InitialKeys(): (t: KeyTable)
    ensures t.Keys == Tracked
    ensures forall k :: k in t ==> !t[k]
  {
    map["w" := false, "s" := false, "a" := false, "d" := false]
  }

  /** Lower-casing of one character (letters A to Z; every other character is kept). */
  function LowerChar(c: char): (l: char)
    ensures 'A' <= c <= 'Z' ==> 'a' <= l <= 'z' && l as int - 'a' as int == c as int - 'A' as int
    ensures !('A' <= c <= 'Z') ==> l == c
  {
    if 'A' <= c <= 'Z' then (c as int - 'A' as int + 'a' as int) as char else c
  }

  /** `String.prototype.toLowerCase`, character by character. */
  function Lower(s: string): (r: string)
    ensures |r| == |s|
    ensures forall i :: 0 <= i < |s| ==> r[i] == LowerChar(s[i])
  {
    if s == [] then [] else [LowerChar(s[0])] + Lower(s[1..])
  }

  /** Exactly eight key names reach the table: the four letters in either case. */
  lemma TrackedKeyIff(key: string)
    ensures Lower(key) in Tracked <==> key in {"w", "W", "s", "S", "a", "A", "d", "D"}
  {
    var l := Lower(key);
    if |key| == 1 {
      var c := key[0];
      assert key == [c] && l == [LowerChar(c)];
      if LowerChar(c) in {'w', 's', 'a', 'd'} {
        assert c in {'w', 'W', 's', 'S', 'a', 'A', 'd', 'D'};
      }
    } else {
      assert |l| != 1;
    }
  }

  /** The effect of one keydown (`pressed`) or keyup event on the table. */
  function KeyUpdate(keys: KeyTable, key: string, pressed: bool): (r: KeyTable)
    ensures r.Keys == keys.Keys
    ensures forall k :: k in keys && k != Lower(key) ==> r[k] == keys[k]
    ensures Lower(key) in keys ==> r[Lower(key)] == pressed
  {
    var k := Lower(key);
    if k in keys then keys[k := pressed] else keys
  }

  /** A key outside the eight leaves the table as it was. */
  lemma KeyUpdateIgnoresOthers(keys: KeyTable, key: string, pressed: bool)
    requires keys.Keys == Tracked
    requires key !in {"w", "W", "s", "S", "a", "A", "d", "D"}
    ensures KeyUpdate(keys, key, pressed) == keys
  {
    TrackedKeyIff(key);
  }

  /** Repeating an event changes nothing more. */
  lemma KeyUpdateIdempotent(keys: KeyTable, key: string, pressed: bool)
    ensures KeyUpdate(KeyUpdate(keys, key, pressed), key, pressed) == KeyUpdate(keys, key, pressed)
  {
  }

  datatype KeyEvent = KeyDown(key: string) | KeyUp(key: string)

  /** The table after a stream of events, handled in order. */
  function ApplyEvents(keys: KeyTable, events: seq<KeyEvent>): (r: KeyTable)
    ensures r.Keys == keys.Keys
    decreases |events|
  {
    if events == [] then keys
    else ApplyEvents(KeyUpdate(keys, events[0].key, events[0].KeyDown?), events[1..])
  }

  /** The kind of the last event in `events` that names table entry `k`, if any. */
  function LastEventFor(events: seq<KeyEvent>, k: string): (r: Option<bool>)
    ensures r.Some? <==> exists i :: 0 <= i < |events| && Lower(events[i].key) == k
    decreases |events|
  {
    if events == [] then None
    else
      var e := events[|events| - 1];
      if Lower(e.key) == k then Some(e.KeyDown?)
      else
        var r := LastEventFor(events[..|events| - 1], k);
        assert forall i :: 0 <= i < |events| - 1 ==> events[..|events| - 1][i] == events[i];
        r
  }

  lemma {:induction false} ApplyEventsSnoc(keys: KeyTable, events: seq<KeyEvent>, e: KeyEvent)
    ensures ApplyEvents(keys, events + [e]) == KeyUpdate(ApplyEvents(keys, events), e.key, e.KeyDown?)
    decreases |events|
  {
    if events == [] {
      assert [e][1..] == [];
    } else {
      assert (events + [e])[1..] == events[1..] + [e];
      ApplyEventsSnoc(KeyUpdate(keys, events[0].key, events[0].KeyDown?), events[1..], e);
    }
  }

  /** Every entry holds the kind of the last event that named it, or its old value when none did. */
  lemma {:induction false} LastEventWins(keys: KeyTable, events: seq<KeyEvent>, k: string)
    requires k in keys
    ensures k in ApplyEvents(keys, events)
    ensures ApplyEvents(keys, events)[k] == match LastEventFor(events, k)
                                             case Some(down) => down
                                             case None => keys[k]
    decreases |events|
  {
    if events != [] {
      var init := events[..|events| - 1];
      var e := events[|events| - 1];
      assert events == init + [e];
      ApplyEventsSnoc(keys, init, e);
      LastEventWins(keys, init, k);
    }
  }
}
