# rpi-nfc-music, modelled in Dafny

rpi-nfc-music is a set of near-duplicate Raspberry Pi scripts for an
NFC-triggered FLAC jukebox. A tag held to the PN532 (or MFRC522) reader
selects an album folder from a JSON mapping. The album is played through VLC,
in order or shuffled. Small web and console tools write the album key onto a
tag in 4-byte pages. A switch on a GPIO pin turns the Bluetooth radio on and
off through `bluetoothctl`.

This project models the logic inside that plumbing:

- **Scan-counter state machines.** `handle_new_tag` decides from the last tag
  and a counter (or, in final.py, a timestamp) whether a scan plays in order
  or shuffled. There are two counters:
  - the *alternating* one of perfect.py, complete-bt.py, shuffle.py and
    shuffle-bluetooth.py;
  - the *run-length* one of done.py.

  Each program's player is a class (`Jukebox.AlternatingPlayer`,
  `Jukebox.RunLengthPlayer`, and the four read-loop players in `ReadLoops`).
  Its fields are `last_scanned_tag`, the counter or the scan time, and a log
  of what the program asks of VLC, `pkill` and `bluetoothctl` (module
  `Actions`).
- **Track lists.** A folder listing becomes an ordered list of `.flac` paths
  in one of these ways:
  - `sorted` then filtered, optionally shuffled in place: `play_album`,
    `play_all_songs_randomly`;
  - walked with `os.walk`: `find_flac_files`;
  - filtered then sorted: works.py, test-pn532.py;
  - sorted on the "track number" key `(int prefix or 99, path)`: final.py,
    new.py, final-broken-modified.py.

  `random.shuffle` is Python's Fisher–Yates loop over an array. The random
  draws are an input (modules `Tracks`, `Playback`, `Sorting`, `Text`).
- **Tag data** (module `TagData`):
  - the 4-byte NUL-padded pages a writer produces;
  - the NUL-removal and whitespace strip of `scan_tag`;
  - the two ways a UID becomes a key: `uid.hex()`, and the unpadded
    `format(byte, 'x')` join.

  The writers are in module `TagWriter`:
  - write.py's console loop;
  - server.py's `scan`/`write` handlers around `last_scanned_uid`;
  - write-web.py's write-until-first-failure loop.
- **Bluetooth decisions** (module `Bluetooth`): which `bluetoothctl power`
  command each script issues for a switch level and a reported radio state.

Hardware, processes, threads and the clock become inputs. A tag read is an
`Option`. A switch level is `Low`/`High`. "Reported powered" is a `bool`. A
folder listing is a `seq<string>`. "Now" is a `real`. Each request to play,
stop or start a thread, and each power command, is appended to a log as an
`Action`; the stop before every `play_audio` (test-pn532.py:36-39) is logged
too. Status queries (`bluetoothctl show`, `pidof`, VLC's `is_playing`) are
inputs, not log entries.

Where the source's own comments and its code disagree, the model follows
the code:

- done.py:62 says "Shuffle only on the second consecutive scan" and
  done.py:65 resets the count when a different tag is scanned. The
  alternating scripts (perfect.py:105-112) have no such reset: a new tag
  leaves the counter as it is, and a counter of 2 is kept.
- final.py:73 says the track numbers are extracted from the file names.
  The code reads them from the joined paths (final.py:71-74).

## Model

| member | source | states |
|---|---|---|
| Text.StrLeTransitive | final.py:78 | Python's string `<=` (the order `sorted` uses) is transitive; with StrLeAntisymmetric and StrLeTotal it is a total order |
| Text.StrLeAntisymmetric | final.py:78 | two strings each `<=` the other are equal |
| Text.StrLeTotal | final.py:78 | any two strings are comparable |
| Text.StrLeCommonPrefix | works.py:47 | a common prefix does not change how two strings compare |
| Text.Join | works.py:46 | `os.path.join(folder, name)` is the folder, one `/`, then the name |
| Text.JoinPreservesOrder | works.py:46-47 | joining to one folder keeps the names' order, so sorting joined paths sorts the names |
| Text.JoinInjective | perfect.py:54 | a joined path determines its folder and its slash-free name |
| Text.StripLeft | perfect.py:130 | the result is a suffix of the input, everything removed is whitespace, and it does not start with whitespace |
| Text.StripRight | perfect.py:130 | the result is a prefix of the input, everything removed is whitespace, and it does not end with whitespace |
| Text.StripResult | perfect.py:130 | `strip()` returns a contiguous slice of its input with no whitespace at either end |
| Text.StripTrimmed | perfect.py:131 | `strip()` leaves an already trimmed string unchanged |
| Text.RemoveNul | perfect.py:131 | `replace('\x00', '')` leaves no NUL and keeps every other character, with its count |
| Text.RemoveNulNoNul | perfect.py:131 | removing NULs from a NUL-free string changes nothing |
| Text.RemoveNulConcat | perfect.py:131 | NUL removal distributes over concatenation |
| Text.BeforeFirstDot | final.py:75 | `f.split('.')[0]`: a dot-free prefix of `f` that stops at the first `.` |
| Sorting.Sort | works.py:47 | the sort returns a permutation of its input |
| Sorting.SortSorted | works.py:47 | under a total order the sort's result is sorted |
| Sorting.InsertSorted | works.py:47 | inserting into a sorted list keeps it sorted |
| Sorting.SortedUnique | test-pn532.py:53 | two sorted permutations of the same list are equal, so the sorted list is determined by its contents |
| Sorting.SortedHeads | test-pn532.py:103 | two sorted permutations start with the same element, so "the first song" is well defined |
| Sorting.SortOfSorted | works.py:47 | sorting a sorted list returns it unchanged |
| Sorting.SortTwo | final.py:78 | the sort of two elements puts the smaller first |
| Tracks.FlacPaths | works.py:46 | `[os.path.join(folder, f) for f in listing if f.endswith('.flac')]` is never longer than the listing |
| Tracks.FlacPathsMembers | works.py:46 | a path is in the list iff it is a `.flac` name of the listing joined to the folder |
| Tracks.FlacPathsConcat | perfect.py:92-94 | filtering distributes over concatenation of listings |
| Tracks.FlacPathsPermutation | perfect.py:90-94 | filtering permuted listings gives permuted path lists |
| Tracks.FlacPathsSorted | perfect.py:89-94 | filtering a sorted listing and joining it to one folder gives a sorted path list |
| Tracks.StrLeIsTotalOrder | final.py:78 | string `<=` is a total order |
| Tracks.AlbumTracksIsSortedPaths | perfect.py:89-94 | sort-then-filter (`play_album`) equals filter-then-sort (works.py, test-pn532.py); it is sorted and a permutation of the `.flac` paths |
| Tracks.SortedPathsSpec | test-pn532.py:49-55 | the result has one path per `.flac` entry, is sorted ascending, and holds exactly the joined `.flac` names |
| Tracks.KeyLeIsTotalOrder | final.py:78 | comparing `(key, path)` pairs is a total order |
| Tracks.TrackNumberOrderSpec | final.py:71-80 | the track-number list is a permutation of the folder's `.flac` paths, ordered by `(key, path)` |
| Tracks.BeforeFirstDotConcat | final.py:75 | how `split('.')[0]` of a concatenation splits between the parts |
| Tracks.JoinedKeyConstant | final.py:75 | within one folder every joined path gets the same key, so the key never separates two tracks |
| Tracks.TrackNumberOrderIsPathOrder | final.py:71-80 | as written, the track-number order is plain path order |
| Tracks.TwoFlacPaths | final.py:72 | two `.flac` names give their two joined paths, in order |
| Tracks.TrackNumberOrderMisordersTracks | final.py:75-78 | with `2.flac` and `10.flac` in `music`, `10.flac` is played first |
| Tracks.NameKeyLeIsTotalOrder | final.py:78 | ordering names by `(key of the bare name, name)` is a total order |
| Tracks.FlacPathsKeepOrder | final.py:72 | filtering and joining keep the listing's order: of two kept paths, the earlier comes from the earlier-ordered name |
| Tracks.TrackNumberOrderByNameSpec | final.py:71-80 | the corrected list is a permutation of the `.flac` paths, and of any two returned paths the earlier comes from a name with a smaller `(track number of the bare name, name)` |
| Tracks.TrackNumberOrderByNameExample | final.py:75-78 | the corrected order plays `2.flac` before `10.flac` |
| Playback.FindFlacFiles | perfect.py:49-55 | `find_flac_files` collects, walk entry by walk entry, each `.flac` file joined to its directory |
| Playback.WalkFlacMembers | perfect.py:51-54 | a path is found iff it is a `.flac` path of some walked directory |
| Playback.FindFlacFilesMembers | complete-bt.py:47-53 | a path is found iff it is a walked file ending in `.flac`, joined to its directory |
| Playback.FlacPathsNoDuplicates | perfect.py:52-54 | distinct names in one folder give distinct paths |
| Playback.WalkFlacNoDuplicates | complete-bt.py:47-53 | over a walk with distinct directories and distinct names in each, every file is found once |
| Playback.Shuffle | perfect.py:76 | `random.shuffle` in place leaves the array a permutation of what it was |
| Playback.ToArray | final.py:49 | `.copy()` gives a fresh array holding the list |
| Playback.CollectFlac | perfect.py:92-94 | the loop over one folder's names collects exactly its `.flac` paths |
| Playback.QueueSortedListing | perfect.py:85-94 | unshuffled, it queues the sorted `.flac` paths; shuffled, a permutation of them, and nothing else |
| Playback.PlayAlbum | perfect.py:85-99 | the effective `play_album` queues the album's `.flac` paths, sorted ascending unless shuffled, a permutation of them when shuffled |
| Playback.PlayAllSongsRandomly | shuffle.py:49-61 | it queues a permutation of the audio folder's `.flac` entries and nothing else |
| Playback.PlayAllSongsRandomlyWalk | perfect.py:57-68 | it queues a permutation of every `.flac` file under the audio folder |
| Playback.PlayInOrder | new.py:47-50 | each path is played in the given order |
| Playback.ShufflePlay | final.py:48-52 | the played sequence is a permutation of `file_paths`, and the caller's list is not changed |
| Playback.RunAudioPlayerThread | final.py:38-42 | a falsy shuffle argument plays in order; any argument plays a permutation of the paths |
| Playback.PlayAllSongsInOrderByKey | final-broken-modified.py:47-58 | every `.flac` entry is played once, in `(key, path)` order, which is plain path order |
| Playback.PlayAllSongsInOrderByName | works.py:45-51 | every `.flac` entry is played once, in ascending path order |
| ScanCounter.AlternatingStepSpec | perfect.py:101-122 | a new tag gives no shuffle and leaves the counter alone; a repeat increments it and shuffles iff it becomes 2, otherwise resets it to 1; the tag becomes the last tag |
| ScanCounter.AlternatingCounterRange | perfect.py:15 | from the start the counter stays in {0, 1, 2}, and the last tag is the last one scanned |
| ScanCounter.AlternatingSnoc | perfect.py:101-122 | the session after one more scan is one step from the session before it |
| ScanCounter.Repeat | perfect.py:105 | n scans of one tag |
| ScanCounter.AlternatingRepeatSession | complete-bt.py:101-108 | after n scans of one tag the counter is 0, then alternates 1 (even n) and 2 (odd n) |
| ScanCounter.AlternatingRepeatPattern | shuffle.py:81-90 | scan n of one tag shuffles iff n is odd and at least 3 |
| ScanCounter.AlternatingSecondScanInOrder | shuffle-bluetooth.py:86-95 | from program start, the second scan of the first tag plays in order |
| ScanCounter.AlternatingHistoryDecides | perfect.py:101-112 | whether a second scan shuffles depends on the counter earlier tags left: after `a` the second `b` plays in order, after `a, a` it shuffles |
| ScanCounter.RunLengthCountsRun | done.py:56-65 | the counter equals the length of the current run of identical scans, and a scan shuffles iff that run has length 2 |
| ScanCounter.RunLengthSecondScanShuffles | done.py:60-65 | after a different tag, the first scan plays in order and the second shuffles |
| ScanCounter.WindowShuffleAtSpec | final.py:154 | over a session of reads, a read shuffles iff it repeats the previous read's text, that read ended at a non-zero (truthy) time, and at most 30 s passed since; the first read and a read of another text never shuffle |
| ScanCounter.WindowQuickRepeatsShuffle | final.py:154-173 | the time is refreshed on every read, so repeats of one tag, each within 30 s of the last, all shuffle after the first: no alternation |
| ScanCounter.WindowThreeReadsExample | final.py:154-173 | reads of one tag at 100, 125 and 150 s: in order, shuffled, shuffled, although the third is 50 s after the first |
| ScanCounter.WindowSessionIsLastRead | final.py:172-173 | the session holds the last read's text and end time, mapped or not |
| ScanCounter.WindowSnoc | final.py:154-173 | the session after one more read is one step from the session before it |
| Bluetooth.ReconcileSpec | perfect.py:174-177 | a command is issued iff the switch and the reported state disagree, it makes the power match the switch, and reconciling again issues nothing |
| Bluetooth.SwitchRulesAgree | complete-bt.py:158-166 | the unconditional LOW→off/else→on rule, the truthy rule and reconciling all leave the same power |
| Bluetooth.PowerCommandRoundTrip | shuffle.py:45-47 | the command text reads back as the requested state, and on and off give different texts |
| Bluetooth.ScanPowerCommandsSpec | works.py:91-116 | power goes off iff reported on, on iff the tag is mapped and it was reported off, at most one command per read |
| Bluetooth.ScanPowerInverted | works.py:113-116 | as written, a mapped read leaves the radio in the opposite state |
| Bluetooth.RestoringScanPowerSpec | works.py:113-116 | restoring after turning off leaves the radio as found, and never turns it on unless it was turned off |
| Bluetooth.RequeryScanEndsOn | test-pn532.py:110-112 | re-querying the status before the power-on ends a mapped read with the radio on |
| TagData.Zeros | write.py:38 | `b'\0' * n` is n zero bytes |
| TagData.Blocks | write.py:33-38 | there are ceil(len/4) blocks, each exactly 4 bytes |
| TagData.BlocksFlatten | write-web.py:31 | the blocks concatenate to the data followed by 0 to 3 zero bytes |
| TagData.BlocksRecoverData | server.py:61-66 | the data is the prefix of the concatenated blocks |
| TagData.BlocksConcat | write.py:33-35 | data whose first part is a multiple of 4 splits into that part's blocks followed by the rest's |
| TagData.BlocksAt | write.py:34-38 | block i is bytes 4i..4i+4 of the data, padded with zeros |
| TagData.AsciiBytes | write.py:29 | encoding ASCII text gives one byte per character |
| TagData.DecodeAscii | perfect.py:130 | a successful decode gives one character per byte |
| TagData.DecodeAsciiBytes | perfect.py:130 | decoding encoded ASCII text gives the text back |
| TagData.DecodeAsciiConcat | perfect.py:130 | decoding distributes over concatenation |
| TagData.StripKeepsNoNul | perfect.py:131 | stripping cannot bring back a NUL |
| TagData.ScanTagSpec | perfect.py:125-138 | `scan_tag` gives None iff no tag, no page, or a failed decode; otherwise a NUL-free, trimmed string |
| TagData.CleanTagTextIdempotent | perfect.py:130-131 | cleaning is idempotent and leaves clean text unchanged |
| TagData.Nuls | write.py:38 | k NUL characters |
| TagData.NulPageDecodes | perfect.py:130 | zero padding decodes to NUL characters |
| TagData.RemoveNulNuls | perfect.py:131 | NUL padding is removed entirely |
| TagData.CleanPadded | perfect.py:130-131 | clean text followed by NUL padding reads back as the text |
| TagData.ShortTextReadsBack | write.py:29-40 | clean ASCII text of 1 to 4 characters written to page 4 is what `scan_tag` reads back |
| TagData.LongTextReadsFirstPage | perfect.py:129 | for longer text `scan_tag` sees only the first page, the first 4 characters cleaned |
| TagData.AsciiBytesPrefix | write.py:29 | encoding commutes with taking a prefix |
| TagData.HexDigitValue | test-pn532.py:87 | a hex digit reads back as its value |
| TagData.UidHex | test-pn532.py:87 | `uid.hex()` has two characters per byte |
| TagData.UidHexRoundTrip | test-pn532.py:87 | parsing `uid.hex()` gives back the UID |
| TagData.UidHexInjective | test-pn532.py:87 | distinct UIDs give distinct `uid.hex()` keys |
| TagData.WideBytes | final-broken-modified.py:85 | the count of bytes of 16 or more is at most the UID length |
| TagData.UnpaddedHexLength | final-broken-modified.py:85 | the unpadded key has one digit per byte plus one per byte of 16 or more, between n and 2n, and equals `uid.hex()` iff no byte is below 16 |
| TagData.UnpaddedHexCollision | final-broken-modified.py:85 | `[0x01, 0x23]` and `[0x12, 0x03]` both give "123" |
| TagWriter.Page4Writes | write.py:32-41 | block i goes to page 4 + i |
| TagWriter.Page4WritesCover | server.py:60-69 | the pages written concatenate to the padded data, the last is page 3 + count, and empty data writes nothing |
| TagWriter.PageBytes | write.py:40 | the bytes of each page write, in order |
| TagWriter.BlockFrom | write.py:33-38 | the slice at `4k`, NUL-padded to four bytes, is page `k` of the data |
| TagWriter.WriteFromPage4 | write.py:32-41 | the loop writes ceil(len/4) 4-byte blocks to consecutive pages from 4; a raising write ends it after that write, and only a write that exists can raise |
| TagWriter.WritesMade | server.py:60-69 | the writes made are a prefix of the page writes: all of them, or those up to and including the one that raises |
| TagWriter.WriteFirstCard | write.py:17-47 | polls until a card answers, writes the data to that card only, and stops; a raising write stops the program after the writes made; with no card it writes nothing |
| TagWriter.WriterServer.constructor | server.py:17 | no UID has been scanned yet |
| TagWriter.WriterServer.Scan | server.py:23-40 | a card found becomes the last scanned UID; otherwise the UID is unchanged and the error page is returned |
| TagWriter.WriterServer.Write | server.py:47-83 | with no scanned UID nothing is written and the error page is returned; a missing form field writes nothing and renders the exception page; a raising page write keeps the writes made and renders the exception page; otherwise all the data goes to pages from 4 and the success page is returned; the UID is never changed |
| TagWriter.FirstFailure | write-web.py:35-38 | the index of the first failed write: every earlier write succeeded |
| TagWriter.FirstFailureAt | write-web.py:36-38 | a failure after only successes is the first failure |
| TagWriter.FirstFailureNone | write-web.py:34-40 | with no failure, every block is written |
| TagWriter.WriteToTag | write-web.py:17-45 | empty data touches no tag; with no tag nothing is written; otherwise block i goes to block i from 0, writing stops at the first failure, and success is reported iff every write succeeded |
| Actions.PowerActions | perfect.py:144-148 | a power command is logged iff one is decided |
| Actions.PowersPlayedSingle | works.py:96 | the power commands and plays of one action |
| Actions.PowersConcat | works.py:91-116 | the power commands of a log distribute over concatenation |
| Actions.PlayedConcat | works.py:100-111 | the plays of a log distribute over concatenation |
| Jukebox.AlternatingActionsSpec | perfect.py:111-120 | a new tag starts random play first, a stop comes iff playing, a mapped tag ends with its album and the shuffle flag, an unmapped tag plays no album |
| Jukebox.AlternatingPlayer.constructor | perfect.py:14-15 | no tag scanned, counter 0 |
| Jukebox.AlternatingPlayer.HandleNewTag | perfect.py:101-123 | the session takes one alternating step, the counter stays in {0, 1, 2}, and the dispatch actions are logged |
| Jukebox.AlternatingPlayer.GatedScanTick | perfect.py:150-161 | nothing while switch 2 reads LOW; otherwise a non-empty scanned tag is handled |
| Jukebox.AlternatingPlayer.ScanTick | complete-bt.py:138-143 | a non-empty scanned tag is handled; otherwise nothing changes |
| Jukebox.AlternatingPlayer.ReplayIfIdle | shuffle-bluetooth.py:140-141 | random play restarts iff the player is idle and some tag has been scanned |
| Jukebox.AlternatingPlayer.PerfectStartup | perfect.py:170-177 | the start-up power command is the reconcile decision |
| Jukebox.AlternatingPlayer.PerfectMainTick | perfect.py:179-204 | replay when idle, reconcile the power, and when switch 2 reads LOW stop the player and forget the last tag, keeping the counter |
| Jukebox.AlternatingPlayer.CompleteBtMainTick | complete-bt.py:150-166 | replay when idle, then power off for LOW and on otherwise, without consulting the radio |
| Jukebox.AlternatingPlayer.ShuffleMainTick | shuffle.py:146-151 | random play whenever idle, with no check on the last tag |
| Jukebox.AlternatingPlayer.ShuffleSwitchTick | shuffle.py:130-137 | LOW turns the radio off, anything else on, every pass |
| Jukebox.AlternatingPlayer.ShuffleBluetoothMainTick | shuffle-bluetooth.py:135-148 | replay when idle, then power on for a truthy reading and off otherwise |
| Jukebox.RunLengthPlayer.constructor | done.py:12-13 | no tag scanned, counter 0 |
| Jukebox.RunLengthPlayer.HandleNewTag | done.py:56-76 | the counter is the length of the current run of identical scans, the tag becomes the last tag, and the album (or the literal all-songs folder) is played with the shuffle flag |
| Jukebox.RunLengthPlayer.ScanTick | done.py:93-98 | only a non-empty scanned tag reaches the handler |
| Jukebox.RunLengthShufflesSecondScan | done.py:62-73 | the second scan of a run plays its folder shuffled |
| ReadLoops.WorksActionsSpec | works.py:91-116 | power off iff reported on, the album played once or twice in the same order, power on at the end iff mapped and reported off |
| ReadLoops.WorksReadSpec | works.py:88-116 | a works.py read issues the scan power commands and plays the album's sorted paths once, or twice with `shuffle_play` and the radio off |
| ReadLoops.WorksOnRead | works.py:76-116 | nothing happens unless both id and text were read; otherwise the read of the stripped text is performed |
| ReadLoops.WorksPlayMapped | works.py:100-116 | the mapped branch plays the sorted paths, again when shuffle-playing with the radio off, then powers on if reported off |
| ReadLoops.ReadActionsPowers | final.py:138-170 | the power commands of a read are the scan power commands, and a stop is always issued |
| ReadLoops.NoPowers | final.py:156-165 | a log of plays has no power commands |
| ReadLoops.ReadActionsAfter | new.py:124-154 | appending the power-off, the stop and the mapped branch gives the read's actions |
| ReadLoops.TimedPlayer.constructor | final.py:109-111 | no tag, no scan time and no reads yet; the fields are the session of no reads |
| ReadLoops.TimedPlayer.PlayMapped | final.py:150-170 | a thread plays the album in track-number order, shuffled by the 30 s rule, then the global folder with the lock when reported off, then power on |
| ReadLoops.TimedPlayer.HandleRead | final.py:138-170 | power off, stop, and for a mapped key its threads and power-on |
| ReadLoops.TimedPlayer.OnRead | final.py:114-173 | nothing without id and text; otherwise the read joins the session's reads, its shuffle flag is `WindowShuffleAt` of that session, and the fields stay the session's last text and end time, mapped or not |
| ReadLoops.TimedPlayer.ReadText | final.py:132-173 | a read of a present text: its actions use the 30-second rule on the old session, which is `WindowShuffleAt` of the reads including this one, and the read becomes the last scan |
| ReadLoops.TimedPlayer.Record | final.py:172-173 | the read joins the history, the fields become its text and end time, they equal `WindowSession` of the history, and the old fields' rule is the history's rule for this read |
| ReadLoops.RunGlobalThread | final.py:161-165 | the lock passed as the shuffle flag is truthy, so the global thread plays a permutation of the folder |
| ReadLoops.LockedPlayer.constructor | new.py:96-98 | no tag yet |
| ReadLoops.LockedPlayer.PlayMapped | new.py:134-154 | locked threads play the album in track-number order, then the global folder when reported off, then power on |
| ReadLoops.LockedPlayer.HandleRead | new.py:124-154 | power off, stop, and for a mapped key its threads and power-on |
| ReadLoops.LockedPlayer.OnRead | new.py:114-156 | the stripped text is played only when non-empty and mapped, and always becomes the last tag |
| ReadLoops.UnpaddedUidPlayer.constructor | final-broken-modified.py:77-78 | no tag yet |
| ReadLoops.UnpaddedUidPlayer.PlayMapped | final-broken-modified.py:106-122 | plays the album's paths in path order, then the global folder's when reported off, then power on |
| ReadLoops.UnpaddedUidPlayer.HandleRead | final-broken-modified.py:93-122 | power off, stop, and for a mapped key its plays and power-on |
| ReadLoops.UnpaddedUidPlayer.OnRead | final-broken-modified.py:80-124 | the key is the unpadded hex of the UID; every detected UID becomes the last tag |
| ReadLoops.UidPlayer.constructor | test-pn532.py:75-76 | no tag and no scan time yet |
| ReadLoops.UidPlayer.PlayMapped | test-pn532.py:97-112 | only the first sorted song (and the global folder's first when reported off) is played, each after a stop of all audio; an empty list raises, after whatever it played |
| ReadLoops.UidPlayer.HandleRead | test-pn532.py:88-112 | power off, stop, the first songs each after a stop; power on iff the re-queried status is off; a raise keeps what was done so far |
| ReadLoops.UidPlayer.OnRead | test-pn532.py:82-115 | the key is `uid.hex()`; a raising read leaves the session unchanged, any other detected UID becomes the last scan |
| ReadLoops.UidKeyGate | test-pn532.py:97 | for a UID with bytes the key is never empty, so the gate is plain mapping membership, and keys are distinct per UID |

## Left out

- Hardware: PN532 and MFRC522 reads and writes, I2C and GPIO setup. A tag read, a page, a switch level and a write result are inputs.
- Audio and processes: VLC, cvlc, pydub, `pkill`, `pidof` and `bluetoothctl`. Each play, stop and power call is logged as an `Action` instead of run; status queries are inputs. Output parsing is only the "Powered: yes" test.
- Threads, `time.sleep` and the clock. Scans are handled one at a time. final.py's clock readings are the inputs `now` and `doneAt`. `AudioPlayerThread` start order and lock contention are not modelled.
- The distribution of `random.shuffle`. The Fisher–Yates loop is modelled with its draws as an input, and only the permutation property is stated.
- `os.listdir`/`os.walk`. A listing is a given sequence of names, and a walk a given sequence of (directory, files) entries.
- `os.path.join` of an absolute name, which discards the folder, and of a folder that ends in `/`. Joining is always `folder + "/" + name`, so such a folder gives `//` where `os.path.join` gives one slash.
- UTF-8 encode and decode. Only ASCII is modelled, so a tag byte of 0x80 or more fails decoding.
- Unicode `isdigit`. Only ASCII digits are modelled.
- Flask routing, templates and the request object in server.py and write-web.py. A page is returned as a value; the form field is an `Option`, and the text of a caught exception is not carried by the exception page.
- write.py's `input` raising at end of input, and server.py's `scan` handler catching a raising reader read (server.py:42-45). Only a raising page write, and for server.py a missing form field, are modelled as exceptions.
- Exception handlers that only log: `scan_tag`'s decode failure is the None result, and the read errors are an absent read.
- test-pn532.py's KeyboardInterrupt handler (117-122) and the same shutdown handlers of the other read loops.
- The first `play_album` of perfect.py (70) and complete-bt.py (68). The second definition overrides each.
- new.py's main loop calls an undefined `reader` (new.py:109). The NameError is swallowed, so the loop never reads a tag. ReadLoops.LockedPlayer.OnRead models a read that succeeds.
- new.py's `play_audio` skips a file when a `vlc` process is already running. The log records the play request.
- works.py's in-place `songs.sort()` is modelled on values, because the list is local and not aliased.
- plz-work-pn532.py, read.py, pair-nfc.py, tts.py and flick-test.py: no logic beyond I/O.
- Python's `sorted` (Timsort) is modelled by an insertion sort. Every ordering used is a total order, so any correct sort gives the same list (Sorting.SortedUnique).

## Findings

| source | as written | input that shows it | evidently intended | confidence | as-written member | corrected member |
|---|---|---|---|---|---|---|
| final.py:75 | the track number is read from the joined path, so every path of a folder gets the same key (99, unless the folder path starts with digits followed by a `.`) and tracks play in path order | folder `music`, files `2.flac` and `10.flac`: `10.flac` plays first | take the number from the bare file name, so `2.flac` plays before `10.flac` | not executed | Tracks.TrackNumberOrderMisordersTracks | Tracks.TrackNumberOrderByNameSpec |
| final-broken-modified.py:85 | `format(byte, 'x')` drops leading zeros, so different UIDs can share a key | UIDs `[0x01, 0x23]` and `[0x12, 0x03]` both give "123" | two hex digits per byte, as `uid.hex()` gives | not executed | TagData.UnpaddedHexCollision | TagData.UidHexInjective |
| perfect.py:105-110 | the alternating counter is not reset on a new tag, so whether the second scan of a tag shuffles depends on the counter earlier tags left, and repeats of one tag shuffle on odd scans from the third | scans `a, b, b`: the second `b` is in order; scans `a, a, b, b`: it shuffles | shuffle on the second scan of a run, whatever came before | not executed | ScanCounter.AlternatingHistoryDecides | ScanCounter.RunLengthSecondScanShuffles |
| works.py:113-116 | "turn Bluetooth back on if it was turned off" runs when the radio was reported off, so the radio ends in the opposite state | radio on: turned off and left off; radio off: turned on | turn the radio back on only if the read turned it off | not executed | Bluetooth.ScanPowerInverted | Bluetooth.RestoringScanPowerSpec |
