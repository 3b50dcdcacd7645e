/** The loops that turn a folder into what the player is given: the
    `find_flac_files` walk, `random.shuffle`, the `play_album` /
    `play_all_songs_randomly` queueing loops, `AudioPlayerThread` and the
    play loops of final-broken-modified.py and works.py. What reaches the
    media list or `play_audio` is returned as a sequence of paths. */
module Playback {
  import opened Text
  import opened Sorting
  import opened Tracks

  /** One triple of `os.walk`: a directory and the names of the files in it. */
  datatype WalkEntry = WalkEntry(root: string, files: seq<string>)

  /** The paths `find_flac_files` collects, walk entry by walk entry. */
  function WalkFlac(walk: seq<WalkEntry>): seq<string>
  {
    if walk == [] then []
    else WalkFlac(walk[..|walk| - 1]) + FlacPaths(walk[|walk| - 1].root, walk[|walk| - 1].files)
  }

  /** `find_flac_files(directory)`: the loop over the walk, with the loop over
      each folder's files in `CollectFlac`. */
  method FindFlacFiles(walk: seq<WalkEntry>) returns (flacFiles: seq<string>)
    ensures flacFiles == WalkFlac(walk)
  {
    flacFiles := [];
    var i := 0;
    while i < |walk|
      invariant 0 <= i <= |walk|
      invariant flacFiles == WalkFlac(walk[..i])
    {
      var found := CollectFlac(walk[i].root, walk[i].files);
      flacFiles := flacFiles + found;
      assert walk[..i + 1][..i] == walk[..i];
      i := i + 1;
    }
    assert walk[..i] == walk;
  }

  /** A path is found iff it is among the `.flac` paths of some walked directory. */
  lemma {:induction false} WalkFlacMembers(walk: seq<WalkEntry>, x: string)
    ensures x in WalkFlac(walk) <==> exists k :: 0 <= k < |walk| && x in FlacPaths(walk[k].root, walk[k].files)
  {
    if walk != [] {
      var last := |walk| - 1;
      WalkFlacMembers(walk[..last], x);
      assert forall k :: 0 <= k < last ==> walk[..last][k] == walk[k];
    }
  }

  /** `find_flac_files` returns exactly the walked files whose name ends in
      `.flac`, each joined to its directory. */
  lemma FindFlacFilesMembers(walk: seq<WalkEntry>, x: string)
    ensures x in WalkFlac(walk) <==>
      exists k, n :: 0 <= k < |walk| && n in walk[k].files && IsFlac(n) && x == Join(walk[k].root, n)
  {
    WalkFlacMembers(walk, x);
    forall k | 0 <= k < |walk| {
      FlacPathsMembers(walk[k].root, walk[k].files, x);
    }
  }

  predicate NoDuplicates<T(==)>(s: seq<T>)
  {
    forall i, j :: 0 <= i < j < |s| ==> s[i] != s[j]
  }

  /** The paths of distinct `.flac` names in one folder are distinct. */
  lemma {:induction false} FlacPathsNoDuplicates(folder: string, names: seq<string>)
    requires NoDuplicates(names)
    ensures NoDuplicates(FlacPaths(folder, names))
  {
    if names != [] {
      FlacPathsNoDuplicates(folder, names[1..]);
      if IsFlac(names[0]) {
        var tail := FlacPaths(folder, names[1..]);
        forall j | 0 <= j < |tail| ensures Join(folder, names[0]) != tail[j] {
          FlacPathsMembers(folder, names[1..], tail[j]);
          var n :| n in names[1..] && IsFlac(n) && tail[j] == Join(folder, n);
          assert n != names[0];
          assert Join(folder, names[0])[|folder| + 1..] == names[0];
          assert Join(folder, n)[|folder| + 1..] == n;
        }
      }
    }
  }

  /** What `os.walk` guarantees about its triples: distinct directories, and
      distinct file names without '/' in each. */
  ghost predicate WellFormedWalk(walk: seq<WalkEntry>)
  {
    (forall i, j :: 0 <= i < j < |walk| ==> walk[i].root != walk[j].root)
    && (forall i :: 0 <= i < |walk| ==> NoDuplicates(walk[i].files))
    && (forall i, n :: 0 <= i < |walk| && n in walk[i].files ==> '/' !in n)
  }

  /** Over a well-formed walk, `find_flac_files` lists every file once. */
  lemma {:induction false} WalkFlacNoDuplicates(walk: seq<WalkEntry>)
    requires WellFormedWalk(walk)
    ensures NoDuplicates(WalkFlac(walk))
  {
    if walk != [] {
      var last := |walk| - 1;
      var front, back := WalkFlac(walk[..last]), FlacPaths(walk[last].root, walk[last].files);
      assert WellFormedWalk(walk[..last]);
      WalkFlacNoDuplicates(walk[..last]);
      FlacPathsNoDuplicates(walk[last].root, walk[last].files);
      forall i, j | 0 <= i < |front| && 0 <= j < |back| ensures front[i] != back[j] {
        WalkFlacMembers(walk[..last], front[i]);
        var k :| 0 <= k < last && front[i] in FlacPaths(walk[..last][k].root, walk[..last][k].files);
        assert walk[..last][k] == walk[k];
        FlacPathsMembers(walk[k].root, walk[k].files, front[i]);
        var n :| n in walk[k].files && IsFlac(n) && front[i] == Join(walk[k].root, n);
        FlacPathsMembers(walk[last].root, walk[last].files, back[j]);
        var m :| m in walk[last].files && IsFlac(m) && back[j] == Join(walk[last].root, m);
        if front[i] == back[j] {
          JoinInjective(walk[k].root, n, walk[last].root, m);
        }
      }
      var all := front + back;
      forall i, j | 0 <= i < j < |all| ensures all[i] != all[j] {
        if j < |front| {
          assert all[i] == front[i] && all[j] == front[j];
        } else if i >= |front| {
          assert all[i] == back[i - |front|] && all[j] == back[j - |front|];
        } else {
          assert all[i] == front[i] && all[j] == back[j - |front|];
        }
      }
    }
  }

  /** The draws of `random.shuffle` on a list of length `n`: the swap partner
      chosen at step `i` is at most `i`. */
  predicate ShuffleDraws(picks: seq<nat>, n: nat)
  {
    |picks| == n && forall i :: 0 <= i < n ==> picks[i] <= i
  }

  /** `random.shuffle(x)`: `for i in reversed(range(1, len(x)))`, swap `x[i]`
      with `x[j]` for the drawn `j <= i`. */
  method Shuffle<T>(a: array<T>, picks: seq<nat>)
    requires ShuffleDraws(picks, a.Length)
    modifies a
    ensures multiset(a[..]) == old(multiset(a[..]))
  {
    var i := a.Length - 1;
    while i > 0
      invariant -1 <= i < a.Length
      invariant multiset(a[..]) == old(multiset(a[..]))
    {
      var j := picks[i];
      a[i], a[j] := a[j], a[i];
      i := i - 1;
    }
  }

  /** Copies a list into a fresh array, as `list(...)`/`.copy()` do. */
  method ToArray<T>(s: seq<T>) returns (a: array<T>)
    ensures fresh(a) && a[..] == s
  {
    a := new T[|s|](i requires 0 <= i < |s| => s[i]);
  }

  /** The loop over one folder's names that keeps each `.flac` name, joined
      to the folder: `for song in songs: if song.endswith('.flac'):` in
      `play_album`, `for file in files: if file.endswith('.flac'):` in
      `find_flac_files`. */
  method CollectFlac(path: string, songs: seq<string>) returns (queued: seq<string>)
    ensures queued == FlacPaths(path, songs)
  {
    queued := [];
    var i := 0;
    while i < |songs|
      invariant 0 <= i <= |songs|
      invariant queued == FlacPaths(path, songs[..i])
    {
      assert songs[..i + 1] == songs[..i] + [songs[i]];
      FlacPathsConcat(path, songs[..i], [songs[i]]);
      if IsFlac(songs[i]) {
        queued := queued + [Join(path, songs[i])];
      }
      i := i + 1;
    }
    assert songs[..i] == songs;
  }

  /** The body shared by the second `play_album` and by
      `play_all_songs_randomly` in shuffle.py and shuffle-bluetooth.py:
      `songs = sorted(os.listdir(path))`, shuffled in place when asked, then
      each `.flac` song joined to `path` is added to the media list. */
  method QueueSortedListing(path: string, listing: seq<string>, shuffle: bool, picks: seq<nat>)
    returns (queued: seq<string>)
    requires ShuffleDraws(picks, |listing|)
    ensures !shuffle ==> queued == AlbumTracks(path, listing)
    ensures multiset(queued) == multiset(FlacPaths(path, listing))
  {
    var songs := ToArray(Sort(listing, StrLe));
    if shuffle {
      Shuffle(songs, picks);
    }
    assert multiset(songs[..]) == multiset(listing);
    queued := CollectFlac(path, songs[..]);
    FlacPathsPermutation(path, songs[..], Sort(listing, StrLe));
    AlbumTracksIsSortedPaths(path, listing);
  }

  /** The effective (second) `play_album(folder, shuffle)` of perfect.py,
      complete-bt.py, shuffle.py, shuffle-bluetooth.py and done.py. */
  method PlayAlbum(audioFolder: string, folder: string, listing: seq<string>, shuffle: bool, picks: seq<nat>)
    returns (queued: seq<string>)
    requires ShuffleDraws(picks, |listing|)
    ensures !shuffle ==> queued == AlbumTracks(Join(audioFolder, folder), listing)
    ensures !shuffle ==> Sorted(queued, StrLe)
    ensures multiset(queued) == multiset(FlacPaths(Join(audioFolder, folder), listing))
  {
    queued := QueueSortedListing(Join(audioFolder, folder), listing, shuffle, picks);
    AlbumTracksIsSortedPaths(Join(audioFolder, folder), listing);
  }

  /** `play_all_songs_randomly` of shuffle.py and shuffle-bluetooth.py: the
      `.flac` entries of the audio folder, in shuffled order, and nothing else. */
  method PlayAllSongsRandomly(audioFolder: string, listing: seq<string>, picks: seq<nat>)
    returns (queued: seq<string>)
    requires ShuffleDraws(picks, |listing|)
    ensures multiset(queued) == multiset(FlacPaths(audioFolder, listing))
  {
    queued := QueueSortedListing(audioFolder, listing, true, picks);
  }

  /** `play_all_songs_randomly` of perfect.py and complete-bt.py: every `.flac`
      file under the audio folder, found by `find_flac_files`, shuffled. */
  method PlayAllSongsRandomlyWalk(walk: seq<WalkEntry>, picks: seq<nat>) returns (queued: seq<string>)
    requires ShuffleDraws(picks, |WalkFlac(walk)|)
    ensures multiset(queued) == multiset(WalkFlac(walk))
  {
    var found := FindFlacFiles(walk);
    var flacFiles := ToArray(found);
    Shuffle(flacFiles, picks);
    queued := flacFiles[..];
  }

  /** Plays each path in turn: `play_in_order` of final.py and the locked
      `run` of new.py's AudioPlayerThread. */
  method PlayInOrder(filePaths: seq<string>) returns (played: seq<string>)
    ensures played == filePaths
  {
    played := [];
    for i := 0 to |filePaths|
      invariant played == filePaths[..i]
    {
      played := played + [filePaths[i]];
    }
  }

  /** `shuffle_play` of final.py: shuffles a copy, so `file_paths` keeps its
      order, and plays every path of it once. */
  method ShufflePlay(filePaths: seq<string>, picks: seq<nat>) returns (played: seq<string>)
    requires ShuffleDraws(picks, |filePaths|)
    ensures multiset(played) == multiset(filePaths)
  {
    var shuffledPaths := ToArray(filePaths);
    Shuffle(shuffledPaths, picks);
    played := PlayInOrder(shuffledPaths[..]);
  }

  /** The `shuffle` argument of final.py's AudioPlayerThread: a flag, or the
      lock object passed in its place at final.py:164. */
  datatype ShuffleArg = Flag(on: bool) | LockObject

  /** Python truthiness of the argument: a lock object is truthy. */
  predicate Truthy(arg: ShuffleArg)
  {
    match arg
    case Flag(on) => on
    case LockObject => true
  }

  /** `AudioPlayerThread.run` of final.py: shuffled when the argument is
      truthy, in the given order otherwise. */
  method RunAudioPlayerThread(filePaths: seq<string>, shuffle: ShuffleArg, picks: seq<nat>)
    returns (played: seq<string>)
    requires ShuffleDraws(picks, |filePaths|)
    ensures !Truthy(shuffle) ==> played == filePaths
    ensures multiset(played) == multiset(filePaths)
  {
    if Truthy(shuffle) {
      played := ShufflePlay(filePaths, picks);
    } else {
      played := PlayInOrder(filePaths);
    }
  }

  /** `play_all_songs_in_order` of final-broken-modified.py: sorts by
      `(key, path)` and passes every `.flac` path to `play_audio` once. */
  method PlayAllSongsInOrderByKey(folder: string, listing: seq<string>) returns (played: seq<string>)
    ensures multiset(played) == multiset(FlacPaths(folder, listing))
    ensures Sorted(played, KeyLe)
    ensures played == SortedPaths(folder, listing)
  {
    var sortedSongs := TrackNumberOrder(folder, listing);
    played := PlayInOrder(sortedSongs);
    TrackNumberOrderSpec(folder, listing);
    TrackNumberOrderIsPathOrder(folder, listing);
  }

  /** `play_all_songs_in_order` of works.py: filter, `songs.sort()` in place,
      then play each path in ascending order. */
  method PlayAllSongsInOrderByName(folder: string, listing: seq<string>) returns (played: seq<string>)
    ensures multiset(played) == multiset(FlacPaths(folder, listing))
    ensures Sorted(played, StrLe)
    ensures played == SortedPaths(folder, listing)
  {
    var songs := FlacPaths(folder, listing);
    songs := Sort(songs, StrLe);
    played := PlayInOrder(songs);
    StrLeIsTotalOrder();
    SortSorted(FlacPaths(folder, listing), StrLe);
  }
}
