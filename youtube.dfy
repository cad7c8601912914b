/** The YouTube locator handling: extracting a video id from a watch or short
    URL, and the cache decision of the audio download, which consults a
    persisted id -> song library before running the external downloader. */
module YouTube {
  import opened GoStrings

  /** The substring that marks a `youtube.com/watch?v=<id>` locator. */
  const WatchPattern: string := "youtube.com/watch?v="
  /** The substring that marks a `youtu.be/<id>` locator. */
  const ShortPattern: string := "youtu.be/"

  /** The video id of `url`, or "" when `url` is not a recognised locator.
      A watch URL yields the text after the first "v=", up to the next "&" or
      the next "v=" (the split is on every occurrence); a short URL yields the
      text after the first "youtu.be/", up to the next "?" or "youtu.be/".
      The watch form is tried first. */
  function GetVideoID(url: string): (id: string)
    ensures Contains(url, WatchPattern) ==> !Contains(id, "&")
    ensures !Contains(url, WatchPattern) && Contains(url, ShortPattern) ==> !Contains(id, "?")
    ensures !Contains(url, WatchPattern) && !Contains(url, ShortPattern) ==> id == ""
  {
    if Contains(url, WatchPattern) then
      var parts := Split(url, "v=");
      if |parts| > 1 then Split(parts[1], "&")[0] else ""
    else if Contains(url, ShortPattern) then
      var parts := Split(url, ShortPattern);
      if |parts| > 1 then Split(parts[1], "?")[0] else ""
    else ""
  }

  /** A watch URL always holds a "v=" (the one inside the watch pattern), and
      its id is what follows the FIRST "v=" of the URL, cut before the first
      "&" or "v=" after it; so it holds neither. */
  lemma WatchId(url: string)
    requires Contains(url, WatchPattern)
    ensures Contains(url, "v=")
    ensures var rest := url[Index(url, "v=") + 2..];
      CutBefore(GetVideoID(url), rest, "v=", "&")
    ensures !Contains(GetVideoID(url), "&") && !Contains(GetVideoID(url), "v=")
  {
    var w := Index(url, WatchPattern);
    assert url[w + 18..w + 20] == url[w..w + 20][18..20];
    assert OccursAt(url, "v=", w + 18);
    var rest := url[Index(url, "v=") + 2..];
    SecondPiece(url, "v=");
    TwoCuts(rest, "v=", "&");
    CutAvoids(GetVideoID(url), rest, "v=", "&");
  }

  /** A short URL that is not a watch URL yields what follows the FIRST
      "youtu.be/", cut before the first "?" or "youtu.be/" after it. */
  lemma ShortId(url: string)
    requires !Contains(url, WatchPattern) && Contains(url, ShortPattern)
    ensures var rest := url[Index(url, ShortPattern) + |ShortPattern|..];
      CutBefore(GetVideoID(url), rest, ShortPattern, "?")
    ensures !Contains(GetVideoID(url), "?") && !Contains(GetVideoID(url), ShortPattern)
  {
    var rest := url[Index(url, ShortPattern) + |ShortPattern|..];
    SecondPiece(url, ShortPattern);
    TwoCuts(rest, ShortPattern, "?");
    CutAvoids(GetVideoID(url), rest, ShortPattern, "?");
  }

  /** A library entry (the JSON object {"id", "filename"}). */
  datatype Song = Song(id: string, filename: string)

  /** The library's map from video id to song. A JSON null map reads as the
      empty map: Go treats a lookup in a nil map as a miss, and the download
      path replaces a nil map by an empty one before inserting. */
  type Library = map<string, Song>

  /** What reading and decoding the library file gives: the file does not
      exist, reading it fails otherwise, its contents do not decode, or it
      decodes to a library. */
  datatype LibraryFile = Missing | Unreadable | Malformed | Stored(songs: Library)

  datatype Error =
    | InvalidUrl      // "invalid YouTube URL"
    | LoadFailed      // the read or decode error of the library file
    | DownloadFailed  // "failed to download audio: ..."
    | SaveFailed      // the encode or write error of the library file

  datatype Result<T> = Ok(value: T) | Err(error: Error)

  /** The external effects of a download, in the order they happen. */
  datatype IoStep =
    | ReadLibrary                  // read songs.json
    | RunDownloader(url: string)   // run yt-dlp on the URL
    | WriteLibrary(songs: Library) // write songs.json with this library

  /** Loading the library: a missing file is an empty library, any other read
      failure or a decoding failure is an error. */
  function LoadSongLibrary(file: LibraryFile): (r: Result<Library>)
    ensures file.Missing? ==> r == Ok(map[])
    ensures r.Err? <==> file.Unreadable? || file.Malformed?
    ensures r.Err? ==> r.error == LoadFailed
    ensures file.Stored? ==> r == Ok(file.songs)
  {
    match file
    case Missing => Ok(map[])
    case Unreadable => Err(LoadFailed)
    case Malformed => Err(LoadFailed)
    case Stored(songs) => Ok(songs)
  }

  /** Where the downloader is told to put the audio of a video: the id
      between the directory prefix "songs/" and the extension ".opus". */
  function AudioPath(id: string): (path: string)
    ensures |path| == |id| + 11
    ensures path[..6] == "songs/" && path[|path| - 5..] == ".opus"
    ensures path[6..|path| - 5] == id
  {
    "songs/" + id + ".opus"
  }

  /** Distinct ids get distinct audio files. */
  lemma AudioPathInjective(a: string, b: string)
    requires AudioPath(a) == AudioPath(b)
    ensures a == b
  {
  }

  /** The download of `url` with the cache decision. The library file as it is
      read, the outcome of the downloader and the outcome of the write are
      parameters; `io` lists the effects performed.
      - An empty id fails with InvalidUrl before anything is read.
      - A failed load fails with LoadFailed.
      - A hit returns the stored file name and writes nothing.
      - A miss runs the downloader; if it succeeds, the library extended by
        id -> Song(id, AudioPath(id)) is written and AudioPath(id) returned. */
  method DownloadAudio(url: string, file: LibraryFile, downloadOk: bool, saveOk: bool)
    returns (r: Result<string>, io: seq<IoStep>)
    ensures r == Err(InvalidUrl) <==> GetVideoID(url) == ""
    ensures GetVideoID(url) == "" ==> io == []
    ensures GetVideoID(url) != "" ==> |io| >= 1 && io[0] == ReadLibrary
    ensures GetVideoID(url) != "" && LoadSongLibrary(file).Err? ==>
      r == Err(LoadFailed) && io == [ReadLibrary]
    ensures var id := GetVideoID(url); var lib := LoadSongLibrary(file);
      id != "" && lib.Ok? && id in lib.value ==>
        r == Ok(lib.value[id].filename) && io == [ReadLibrary]
    ensures var id := GetVideoID(url); var lib := LoadSongLibrary(file);
      id != "" && lib.Ok? && id !in lib.value && !downloadOk ==>
        r == Err(DownloadFailed) && io == [ReadLibrary, RunDownloader(url)]
    ensures var id := GetVideoID(url); var lib := LoadSongLibrary(file);
      id != "" && lib.Ok? && id !in lib.value && downloadOk ==>
        && io == [ReadLibrary, RunDownloader(url),
                  WriteLibrary(lib.value[id := Song(id, AudioPath(id))])]
        && r == (if saveOk then Ok(AudioPath(id)) else Err(SaveFailed))
  {
    io := [];
    var id := GetVideoID(url);
    if id == "" {
      return Err(InvalidUrl), io;
    }
    io := io + [ReadLibrary];
    var loaded := LoadSongLibrary(file);
    if loaded.Err? {
      return Err(loaded.error), io;
    }
    var songs := loaded.value;
    if id in songs {
      return Ok(songs[id].filename), io;
    }
    io := io + [RunDownloader(url)];
    if !downloadOk {
      return Err(DownloadFailed), io;
    }
    var filename := AudioPath(id);
    songs := songs[id := Song(id, filename)];
    io := io + [WriteLibrary(songs)];
    if !saveOk {
      return Err(SaveFailed), io;
    }
    return Ok(filename), io;
  }

  /** The library file as a download leaves it: a successful write replaces
      it, anything else leaves it as it was. */
  function FileAfter(file: LibraryFile, io: seq<IoStep>, saveOk: bool): (after: LibraryFile)
  {
    if |io| > 0 && io[|io| - 1].WriteLibrary? && saveOk then Stored(io[|io| - 1].songs) else file
  }

  /** Downloading the same URL twice, the second time against the library
      file the first left behind: once the first succeeded, the second is a
      cache hit that returns the same file name without running the
      downloader or writing the library; an invalid URL stays invalid. */
  method DownloadTwice(url: string, file: LibraryFile, downloadOk: bool, saveOk: bool,
                       downloadOk': bool, saveOk': bool)
    returns (first: Result<string>, second: Result<string>, secondIo: seq<IoStep>)
    ensures first.Ok? ==> second == first && secondIo == [ReadLibrary]
    ensures first == Err(InvalidUrl) ==> second == first && secondIo == []
  {
    var io;
    first, io := DownloadAudio(url, file, downloadOk, saveOk);
    second, secondIo := DownloadAudio(url, FileAfter(file, io, saveOk), downloadOk', saveOk');
  }
}
