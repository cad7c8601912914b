# ok-bot music queue and YouTube locator handling, in Dafny

This project models the two pieces of sequential logic in the ok-bot chat bot
and proves properties about them:

- **The music queue** (`queue/queue.go`). This is a FIFO of songs
  (`Song{URL, Filename}`) held next to three things: the `playing` and
  `paused` flags, the `currentSong` slot, and a one-slot `Done` signal
  buffer. Every operation runs under one mutex. So each is modelled as one
  atomic method of the class `Queue.MusicQueue`. The class's fields are a
  `seq<Song>`, the two flags, a `bool` for "the `Done` slot holds a value",
  and an `Option<Song>` for the song pointer.
- **YouTube locator handling** (`youtube/youtube.go`).
  - `GetVideoID` extracts a video id from a `youtube.com/watch?v=` or
    `youtu.be/` URL. It is a pure function (`YouTube.GetVideoID`).
  - It is built on Go's `strings.Index`, `strings.Contains` and
    `strings.Split`, which are modelled in `GoStrings`. `Split` is proved
    against `Join`, its inverse. The cut the parser makes is proved against
    `CutBefore`, an independent definition: "the prefix up to the first place
    where either separator starts".
  - `DownloadAudio` is a method. It takes three outside facts as parameters:
    what reading `songs.json` gives, whether the downloader succeeded, and
    whether writing the library succeeded. It returns the result and the list
    of external effects it performed, in order.

Files: `go_strings.dfy` (module `GoStrings`), `youtube.dfy` (module
`YouTube`), `queue.dfy` (module `Queue`).

Behaviour of the code that is easy to miss:

- A watch URL's id is cut at the next `&` and also at the next `v=`. This is
  because `strings.Split(url, "v=")` splits at every occurrence. The id
  starts after the FIRST `v=` of the URL, which need not be the one inside
  `watch?v=`.
- A short URL's id is cut at the next `?` and also at the next `youtu.be/`.
- The `len(parts) > 1` guards always pass. A URL holding the watch pattern
  holds a `v=` (`YouTube.WatchId`). So the inner `return ""` is never
  reached, although the model keeps it.
- `Stop` leaves `playing` set while setting `paused`. So "never both playing
  and paused" is not an invariant of the code, and the model does not claim
  it. `Queue.StopThenResume` shows the state where both are set.
- Nothing in the code shown reads from `Done`. After one `Stop` while
  playing, the slot stays full and `playing` stays true. A second `Stop` would
  then block forever while holding the mutex, so `Stop`'s precondition
  excludes that call.

## Model

| member | source | states |
|---|---|---|
| `GoStrings.Index` | youtube/youtube.go:22-31 | `strings.Index`: the result is -1 or a position where the separator occurs, and no occurrence starts before it (for -1, none at all) |
| `GoStrings.ContainsIff` | youtube/youtube.go:22 | `strings.Contains` holds exactly when the separator occurs somewhere |
| `GoStrings.Split` | youtube/youtube.go:23-30 | `strings.Split` with a non-empty separator: at least one piece; more than one exactly when the separator occurs; no piece contains the separator |
| `GoStrings.JoinSplit` | youtube/youtube.go:23-30 | round trip: joining the pieces of `Split` with the separator gives back the original string |
| `GoStrings.FirstPiece` | youtube/youtube.go:25 | `Split(s, sep)[0]` is a prefix of `s` in which no separator starts, and it is all of `s` or ends where a separator starts |
| `GoStrings.SecondPiece` | youtube/youtube.go:24-25 | when the separator occurs, `parts[1]` is the first piece of the text after the first separator |
| `GoStrings.CutUnique` | youtube/youtube.go:25 | the reference cut (prefix up to the first start of either separator) is unique |
| `GoStrings.CutAvoids` | youtube/youtube.go:25 | neither separator occurs inside the reference cut |
| `GoStrings.TwoCuts` | youtube/youtube.go:23-30 | split at `outer`, keep the first piece, split that at a one-character `inner`, keep its first piece: the result is the reference cut of the string at the two separators |
| `YouTube.GetVideoID` | youtube/youtube.go:20-34 | a watch URL's id has no `&`; a short URL's id (not a watch URL) has no `?`; a URL with neither pattern gives `""` |
| `YouTube.WatchId` | youtube/youtube.go:22-26 | a URL with `youtube.com/watch?v=` holds a `v=`; its id is the text after the first `v=`, cut before the next `v=` or `&`, and it holds neither; this also applies when `youtu.be/` occurs too (the watch form has priority) |
| `YouTube.ShortId` | youtube/youtube.go:27-31 | a URL with `youtu.be/` and no watch pattern yields the text after the first `youtu.be/`, cut before the next `?` or `youtu.be/`, and it holds neither |
| `YouTube.LoadSongLibrary` | youtube/youtube.go:82-94 | a missing file loads as the empty library; any other read failure and a decode failure are errors, and these are the only errors; a decoded file loads as its library |
| `YouTube.AudioPath` | youtube/youtube.go:63 | the audio file name is the id between the `songs/` prefix and the `.opus` extension, 11 characters longer than the id |
| `YouTube.AudioPathInjective` | youtube/youtube.go:63 | distinct ids get distinct `songs/<id>.opus` names |
| `YouTube.DownloadAudio` | youtube/youtube.go:36-80 | fails with InvalidUrl exactly when the id is `""`, and then touches nothing; otherwise it reads the library first; a load error fails with nothing else done; a hit returns the stored filename with no download and no write; a miss runs the downloader; on download failure it stops; on success it writes the loaded library updated at `id` with `Song(id, "songs/<id>.opus")` (all other entries unchanged) and returns that filename, or SaveFailed when the write fails |
| `YouTube.DownloadTwice` | youtube/youtube.go:43-79 | after a successful download, a second download of the same URL against the library file as the first left it hits the cache: same filename, only a library read; an invalid URL stays invalid with no effects |
| `Queue.MusicQueue.constructor` | queue/queue.go:21-29 | a new queue has no songs, is neither playing nor paused, has no current song and an empty `Done` slot |
| `Queue.MusicQueue.Add` | queue/queue.go:31-35 | the songs become the old songs followed by the new one (length +1); flags, `Done` slot and current song unchanged |
| `Queue.MusicQueue.Next` | queue/queue.go:37-46 | `ok` exactly when the queue was non-empty; then returns the old head and the queue becomes the old tail; on an empty queue it returns the zero song and nothing changes; flags untouched |
| `Queue.MusicQueue.Clear` | queue/queue.go:48-52 | the queue is empty whatever it held; flags, `Done` slot and current song unchanged |
| `Queue.MusicQueue.List` | queue/queue.go:54-58 | returns a value equal to the current songs, in order, and changes nothing |
| `Queue.MusicQueue.Stop` | queue/queue.go:60-67 | while playing: `paused` set and one value put in the `Done` slot, `playing` still set; otherwise no change; songs and current song untouched |
| `Queue.MusicQueue.Resume` | queue/queue.go:69-74 | `paused` and `playing` both cleared; songs, `Done` slot and current song untouched |
| `Queue.MusicQueue.SetCurrentSong` | queue/queue.go:76-80 | the current song becomes the argument; nothing else changes |
| `Queue.MusicQueue.GetCurrentSong` | queue/queue.go:82-86 | returns the current song |
| `Queue.MusicQueue.IsPlaying` | queue/queue.go:88-92 | returns `playing` |
| `Queue.MusicQueue.IsPaused` | queue/queue.go:94-98 | returns `paused` |
| `Queue.MusicQueue.SetPlaying` | queue/queue.go:100-104 | `playing` becomes the argument; nothing else changes |
| `Queue.AddAllThenTake` | queue/queue.go:31-46 | FIFO: N `Add`s then N `Next`s return the first N of old songs followed by the added ones; from an empty queue, exactly the added songs in insertion order, and the queue ends empty |
| `Queue.ClearTwice` | queue/queue.go:48-58 | `Clear` is idempotent: the list is empty after each of two calls; flags untouched |
| `Queue.SetThenGet` | queue/queue.go:76-104 | `SetCurrentSong(p)` then `GetCurrentSong()` returns `p`, and `SetPlaying(b)` then `IsPlaying()` returns `b`; the songs are untouched |
| `Queue.StopThenResume` | queue/queue.go:60-74 | `Stop` while playing reaches a state that is both playing and paused; the following `Resume` clears both and leaves the signal in the slot |

## Left out

- The `sync.Mutex`: each method is one atomic step. Interleavings of concurrent callers are not modelled.
- The blocking of the `Done` channel. It is a single-slot flag here, and nothing in the code shown receives from it.
- `Queue.MusicQueue.Stop`: its precondition excludes calling it while playing with the `Done` slot already full. The Go code would block forever there with the mutex held. The model does not represent that hang.
- The `*Song` pointer is modelled as an optional value. Aliasing between the stored pointer and the caller's `Song` is not modelled.
- Strings are sequences of characters, not UTF-8 bytes. All separators are ASCII, so the splits agree.
- Running `./yt-dlp_linux` is one step whose success is a parameter. The model does not check that the tool really writes `songs/<id>.opus`; yt-dlp names the file after its own idea of the id.
- Reading and writing `songs.json` and the JSON encoding are opaque steps that may fail. A failed write is taken to leave the file as it was (`YouTube.FileAfter`). A partly written file is not modelled.
- `YouTube.DownloadTwice`: it assumes a successful write of `songs.json` reads back as exactly the map written, that is, a JSON encode-then-decode round trip. The JSON format is not modelled, so this round trip is not proved.
- `YouTube.DownloadTwice`: it assumes no other call writes `songs.json` between the two downloads. `DownloadAudio` takes no lock around its read, modify and write of `songs.json` (youtube/youtube.go:43-75). So two overlapping calls can each read the old library, and the later write drops the entry added by the earlier one. Concurrent calls are not modelled.
- Go's error values are modelled as four error kinds (`YouTube.Error`). The wrapped underlying messages are not modelled.
- The Discord command handling, voice connection, goroutines and the 10-minute playback timeout (`discord/discord.go`, `discord.go`) are not part of this model. Neither are the chat-completion call (`openai/openai.go`, `openai.go`) and the environment loading (`env.go`).
