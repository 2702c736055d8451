/**
 * The filter applied to the run clip when it loads: tracks whose name ends
 * in ".position" are dropped, so the clip does not move the model itself.
 */
module Tracks {
  /** An animation track, reduced to its name. */
  datatype Track = Track(name: string)

  const PositionSuffix: string := ".position"

  /** `String.prototype.endsWith`. */
  predicate EndsWith(s: string, suffix: string) {
    |suffix| <= |s| && s[|s| - |suffix|..] == suffix
  }

  predicate Kept(t: Track) {
    !EndsWith(t.name, PositionSuffix)
  }

  /** `tracks.filter((track) => !track.name.endsWith(".position"))`. */
  function FilterTracks(tracks: seq<Track>): (r: seq<Track>)
    ensures |r| <= |tracks|
    ensures forall t :: t in r <==> t in tracks && Kept(t)
  {
    if tracks == [] then []
    else if Kept(tracks[0]) then [tracks[0]] + FilterTracks(tracks[1..])
    else FilterTracks(tracks[1..])
  }

  /** Filtering distributes over concatenation, so kept tracks keep their order. */
  lemma {:induction false} FilterAppend(a: seq<Track>, b: seq<Track>)
    ensures FilterTracks(a + b) == FilterTracks(a) + FilterTracks(b)
  {
    if a != [] {
      assert (a + b)[0] == a[0];
      assert (a + b)[1..] == a[1..] + b;
      FilterAppend(a[1..], b);
    } else {
      assert a + b == b;
    }
  }

  /** A single track is kept exactly when its name does not end in ".position". */
  lemma FilterSingle(t: Track)
    ensures FilterTracks([t]) == if Kept(t) then [t] else []
  {
  }

  /** Filtering an already filtered list changes nothing. */
  lemma {:induction false} FilterIdempotent(tracks: seq<Track>)
    ensures FilterTracks(FilterTracks(tracks)) == FilterTracks(tracks)
  {
    if tracks != [] {
      FilterIdempotent(tracks[1..]);
      if Kept(tracks[0]) {
        FilterAppend([tracks[0]], FilterTracks(tracks[1..]));
      }
    }
  }

  /** The number of tracks dropped is the number of position tracks. */
  function CountPosition(tracks: seq<Track>): nat {
    if tracks == [] then 0 else (if Kept(tracks[0]) then 0 else 1) + CountPosition(tracks[1..])
  }

  lemma {:induction false} FilterLength(tracks: seq<Track>)
    ensures |FilterTracks(tracks)| == |tracks| - CountPosition(tracks)
  {
    if tracks != [] {
      FilterLength(tracks[1..]);
    }
  }
}
