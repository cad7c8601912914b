/** The music queue: a FIFO of songs with the playback flags, the current
    song and a one-slot "done" signal. In the Go code every operation runs
    under one mutex, so each method here is one atomic step. */
module Queue {

  /** A queued track: where it comes from and the local audio file. */
  datatype Song = Song(url: string, filename: string)

  /** Go's zero value `Song{}`, returned by `Next` on an empty queue. */
  const NoSong := Song("", "")

  /** The `*Song` current-song slot: `None` is the nil pointer. */
  datatype Option<T> = None | Some(value: T)

  class MusicQueue {
    /** Pending songs, head first. */
    var songs: seq<Song>
    var playing: bool
    var paused: bool
    /** Whether the capacity-1 `Done` channel holds a value. */
    var done: bool
    var currentSong: Option<Song>

    /** `NewMusicQueue`: nothing queued, not playing, not paused, no current
        song, and an empty `Done` slot. */
    constructor ()
      ensures songs == [] && !playing && !paused && !done && currentSong == None
    {
      songs := [];
      playing := false;
      paused := false;
      done := false;
      currentSong := None;
    }

    /** Appends `song` at the tail. */
    method Add(song: Song)
      modifies this`songs
      ensures songs == old(songs) + [song]
      ensures |songs| == |old(songs)| + 1
      ensures playing == old(playing) && paused == old(paused)
      ensures done == old(done) && currentSong == old(currentSong)
    {
      songs := songs + [song];
    }

    /** Pops the head. On an empty queue it returns the zero song and `false`
        and changes nothing. */
    method Next() returns (song: Song, ok: bool)
      modifies this`songs
      ensures ok <==> old(songs) != []
      ensures ok ==> song == old(songs)[0] && songs == old(songs)[1..]
      ensures !ok ==> song == NoSong && songs == old(songs)
      ensures playing == old(playing) && paused == old(paused)
      ensures done == old(done) && currentSong == old(currentSong)
    {
      if |songs| == 0 {
        return NoSong, false;
      }
      song := songs[0];
      songs := songs[1..];
      ok := true;
    }

    /** Empties the queue, whatever it held. */
    method Clear()
      modifies this`songs
      ensures songs == []
      ensures playing == old(playing) && paused == old(paused)
      ensures done == old(done) && currentSong == old(currentSong)
    {
      songs := [];
    }

    /** A copy of the pending songs, in order. The copy is a value, so later
        changes to the queue do not reach it. */
    method List() returns (snapshot: seq<Song>)
      ensures snapshot == songs
    {
      snapshot := songs;
    }

    /** While playing: marks the queue paused and puts a value into the `Done`
        slot, leaving `playing` set. Otherwise changes nothing. The slot must
        be empty when playing: a send into a full slot blocks for good in the
        Go code, with the mutex held. */
    method Stop()
      requires playing ==> !done
      modifies this`paused, this`done
      ensures old(playing) ==> paused && done
      ensures !old(playing) ==> paused == old(paused) && done == old(done)
      ensures songs == old(songs) && playing == old(playing)
      ensures currentSong == old(currentSong)
    {
      if playing {
        paused := true;
        done := true;
      }
    }

    /** Clears both `paused` and `playing`, so that playback can be started
        again. */
    method Resume()
      modifies this`paused, this`playing
      ensures !paused && !playing
      ensures songs == old(songs) && done == old(done)
      ensures currentSong == old(currentSong)
    {
      paused := false;
      playing := false;
    }

    method SetCurrentSong(song: Option<Song>)
      modifies this`currentSong
      ensures currentSong == song
      ensures songs == old(songs) && playing == old(playing)
      ensures paused == old(paused) && done == old(done)
    {
      currentSong := song;
    }

    method GetCurrentSong() returns (song: Option<Song>)
      ensures song == currentSong
    {
      song := currentSong;
    }

    method IsPlaying() returns (b: bool)
      ensures b == playing
    {
      b := playing;
    }

    method IsPaused() returns (b: bool)
      ensures b == paused
    {
      b := paused;
    }

    method SetPlaying(b: bool)
      modifies this`playing
      ensures playing == b
      ensures songs == old(songs) && paused == old(paused)
      ensures done == old(done) && currentSong == old(currentSong)
    {
      playing := b;
    }
  }

  /** FIFO order: adding `xs` one by one and then taking `|xs|` songs from the
      head returns the first `|xs|` songs of the old contents followed by
      `xs`, and leaves the rest. From an empty queue that is `xs` itself,
      each song exactly once and in the order added. */
  method AddAllThenTake(q: MusicQueue, xs: seq<Song>) returns (taken: seq<Song>)
    modifies q
    ensures taken == (old(q.songs) + xs)[..|xs|]
    ensures q.songs == (old(q.songs) + xs)[|xs|..]
    ensures old(q.songs) == [] ==> taken == xs && q.songs == []
    ensures q.playing == old(q.playing) && q.paused == old(q.paused)
    ensures q.done == old(q.done) && q.currentSong == old(q.currentSong)
  {
    ghost var all := q.songs + xs;
    var i := 0;
    while i < |xs|
      invariant 0 <= i <= |xs|
      invariant q.songs == old(q.songs) + xs[..i]
      invariant q.playing == old(q.playing) && q.paused == old(q.paused)
      invariant q.done == old(q.done) && q.currentSong == old(q.currentSong)
    {
      q.Add(xs[i]);
      assert xs[..i] + [xs[i]] == xs[..i + 1];
      i := i + 1;
    }
    assert xs[..|xs|] == xs;
    taken := [];
    var j := 0;
    while j < |xs|
      invariant 0 <= j <= |xs|
      invariant taken == all[..j]
      invariant q.songs == all[j..]
      invariant q.playing == old(q.playing) && q.paused == old(q.paused)
      invariant q.done == old(q.done) && q.currentSong == old(q.currentSong)
    {
      var song, ok := q.Next();
      assert ok && song == all[j];
      taken := taken + [song];
      assert all[..j] + [all[j]] == all[..j + 1];
      j := j + 1;
    }
  }

  /** Clearing twice leaves an empty queue both times and touches no flag. */
  method ClearTwice(q: MusicQueue) returns (afterFirst: seq<Song>, afterSecond: seq<Song>)
    modifies q
    ensures afterFirst == [] && afterSecond == []
    ensures q.playing == old(q.playing) && q.paused == old(q.paused)
    ensures q.currentSong == old(q.currentSong)
  {
    q.Clear();
    afterFirst := q.List();
    q.Clear();
    afterSecond := q.List();
  }

  /** Setting the current song and reading it back gives the song set, and
      the playing flag round-trips the same way; the queue is left alone. */
  method SetThenGet(q: MusicQueue, song: Option<Song>, b: bool)
    returns (gotSong: Option<Song>, gotPlaying: bool)
    modifies q
    ensures gotSong == song && gotPlaying == b
    ensures q.songs == old(q.songs)
  {
    q.SetCurrentSong(song);
    q.SetPlaying(b);
    gotSong := q.GetCurrentSong();
    gotPlaying := q.IsPlaying();
  }

  /** A Stop while playing followed by a Resume: the Stop pauses and signals,
      the Resume clears both flags, so the queue ends neither playing nor
      paused with the signal still in the slot. */
  method StopThenResume(q: MusicQueue)
    requires q.playing && !q.done
    modifies q
    ensures !q.playing && !q.paused && q.done
    ensures q.songs == old(q.songs) && q.currentSong == old(q.currentSong)
  {
    q.Stop();
    assert q.paused && q.playing;
    q.Resume();
  }
}
