/** The read loops of the later players, which take the album from the
    tag's text or UID, switch Bluetooth off while they start playback and
    play track lists built in module Tracks: works.py, final.py, new.py,
    final-broken-modified.py and test-pn532.py. One call of `OnRead` is the
    body of the main loop for one read; the reader's result, the Bluetooth
    report, the clock and the folder listings are its inputs. `mapping` maps
    a tag's key to its `tag_info["folder"]`. */
module ReadLoops {
  import opened Optional
  import opened Text
  import opened Tracks
  import opened ScanCounter
  import opened Bluetooth
  import opened TagData
  import opened Actions
  import opened Playback

  /** `album_info and album_info in tag_audio_mapping`. */
  predicate Mapped(albumInfo: string, mapping: map<string, string>)
  {
    albumInfo != "" && albumInfo in mapping
  }

  /** The actions of one works.py read: power off when reported on, then
      for a mapped tag its songs (`twice` when replayed) and power on when
      reported off. */
  function WorksActions(reportedOn: bool, mapped: bool, songs: seq<string>, twice: bool): seq<Action>
  {
    (if reportedOn then [Power(false)] else [])
    + (if mapped then [PlaySongs(songs)] + (if twice then [PlaySongs(songs)] else [])
                      + (if !reportedOn then [Power(true)] else [])
       else [])
  }

  lemma WorksActionsSpec(reportedOn: bool, mapped: bool, songs: seq<string>, twice: bool)
    ensures var acts := WorksActions(reportedOn, mapped, songs, twice);
      && Powers(acts) == ScanPowerCommands(reportedOn, mapped)
      && Played(acts) == (if !mapped then [] else if twice then [songs, songs] else [songs])
      && (reportedOn ==> acts[0] == Power(false))
      && (mapped && !reportedOn ==> acts[|acts| - 1] == Power(true))
  {
    var off: seq<Action> := if reportedOn then [Power(false)] else [];
    var one: seq<Action> := [PlaySongs(songs)];
    var plays: seq<Action> := one + (if twice then one else []);
    var on: seq<Action> := if !reportedOn then [Power(true)] else [];
    PowersPlayedSingle(Power(false));
    PowersPlayedSingle(Power(true));
    PowersPlayedSingle(PlaySongs(songs));
    assert Powers(off) == (if reportedOn then [false] else []) && Played(off) == [];
    assert Powers(on) == (if !reportedOn then [true] else []) && Played(on) == [];
    PowersConcat(one, if twice then one else []);
    PlayedConcat(one, if twice then one else []);
    if mapped {
      assert WorksActions(reportedOn, mapped, songs, twice) == off + (plays + on);
      PowersConcat(plays, on);
      PlayedConcat(plays, on);
      PowersConcat(off, plays + on);
      PlayedConcat(off, plays + on);
      assert Played(plays) == (if twice then [songs, songs] else [songs]);
      assert Played(off + (plays + on)) == Played(plays);
      assert Powers(off + (plays + on)) == Powers(off) + Powers(on);
    } else {
      assert WorksActions(reportedOn, mapped, songs, twice) == off;
    }
  }

  /** The actions of a works.py read whose key is `albumInfo`. */
  function WorksRead(albumInfo: string, reportedOn: bool, mapping: map<string, string>,
                     audioFolder: string, listing: seq<string>, shufflePlay: bool): seq<Action>
  {
    var mapped := Mapped(albumInfo, mapping);
    WorksActions(reportedOn, mapped,
      if mapped then SortedPaths(Join(audioFolder, mapping[albumInfo]), listing) else [],
      shufflePlay && !reportedOn)
  }

  /** Power goes off iff it was reported on and comes back on only for a
      mapped key that found it off; a mapped key plays its folder's `.flac`
      paths in ascending order, twice when `shufflePlay` is set and the power
      was reported off. */
  lemma WorksReadSpec(albumInfo: string, reportedOn: bool, mapping: map<string, string>,
                      audioFolder: string, listing: seq<string>, shufflePlay: bool)
    ensures var actions := WorksRead(albumInfo, reportedOn, mapping, audioFolder, listing, shufflePlay);
      var mapped := Mapped(albumInfo, mapping);
      && Powers(actions) == ScanPowerCommands(reportedOn, mapped)
      && Played(actions) == (if !mapped then [] else
           var songs := SortedPaths(Join(audioFolder, mapping[albumInfo]), listing);
           if shufflePlay && !reportedOn then [songs, songs] else [songs])
      && (reportedOn ==> actions[0] == Power(false))
      && (mapped && !reportedOn ==> actions[|actions| - 1] == Power(true))
  {
    var mapped := Mapped(albumInfo, mapping);
    WorksActionsSpec(reportedOn, mapped,
      if mapped then SortedPaths(Join(audioFolder, mapping[albumInfo]), listing) else [],
      shufflePlay && !reportedOn);
  }

  /** works.py:69-116 for one read: nothing happens unless both the id and
      the text were read, and then the stripped text is the key. */
  method WorksOnRead(idFound: bool, text: Option<string>, reportedOn: bool, mapping: map<string, string>,
                     audioFolder: string, listing: seq<string>, shufflePlay: bool)
    returns (actions: seq<Action>)
    ensures !(idFound && text.Some?) ==> actions == []
    ensures idFound && text.Some? ==>
      actions == WorksRead(Strip(text.value), reportedOn, mapping, audioFolder, listing, shufflePlay)
  {
    actions := [];
    if !(idFound && text.Some?) {
      return;
    }
    var albumInfo := Strip(text.value);
    if reportedOn {
      actions := actions + [Power(false)];
    }
    ghost var off := actions;
    var songs: seq<string> := [];
    if Mapped(albumInfo, mapping) {
      var played;
      songs, played := WorksPlayMapped(Join(audioFolder, mapping[albumInfo]), listing, reportedOn, shufflePlay);
      actions := actions + played;
      assert WorksRead(albumInfo, reportedOn, mapping, audioFolder, listing, shufflePlay) == off + played;
    } else {
      assert WorksRead(albumInfo, reportedOn, mapping, audioFolder, listing, shufflePlay) == off;
    }
  }

  /** The mapped branch of a works.py read (works.py:100-116). */
  method WorksPlayMapped(folder: string, listing: seq<string>, reportedOn: bool, shufflePlay: bool)
    returns (songs: seq<string>, actions: seq<Action>)
    ensures songs == SortedPaths(folder, listing)
    ensures actions == [PlaySongs(songs)] + (if shufflePlay && !reportedOn then [PlaySongs(songs)] else [])
      + (if !reportedOn then [Power(true)] else [])
  {
    songs := PlayAllSongsInOrderByName(folder, listing);
    actions := [PlaySongs(songs)];
    if shufflePlay && !reportedOn {
      var again := PlayAllSongsInOrderByName(folder, listing);
      actions := actions + [PlaySongs(again)];
    }
    if !reportedOn {
      actions := actions + [Power(true)];
    }
  }

  /** The shape shared by the reads of final.py, new.py,
      final-broken-modified.py and test-pn532.py: power off when reported
      on, stop what is playing, and for a mapped key the `plays` followed by
      a power-on when `powerOn` holds. */
  function ReadActions(reportedOn: bool, mapped: bool, plays: seq<Action>, powerOn: bool): seq<Action>
  {
    (if reportedOn then [Power(false)] else []) + [Stop]
    + (if mapped then plays + (if powerOn then [Power(true)] else []) else [])
  }

  /** When the plays issue no power command and the power-on condition is
      "reported off", the power requests of a read are exactly the ones of
      Bluetooth.ScanPowerCommands; so these reads leave the power inverted
      (Bluetooth.ScanPowerInverted). */
  lemma ReadActionsPowers(reportedOn: bool, mapped: bool, plays: seq<Action>)
    requires forall a :: a in plays ==> !a.Power?
    ensures Powers(ReadActions(reportedOn, mapped, plays, !reportedOn)) == ScanPowerCommands(reportedOn, mapped)
    ensures Stop in ReadActions(reportedOn, mapped, plays, !reportedOn)
  {
    var off: seq<Action> := if reportedOn then [Power(false)] else [];
    var on: seq<Action> := if !reportedOn then [Power(true)] else [];
    var tail: seq<Action> := if mapped then plays + on else [];
    assert ReadActions(reportedOn, mapped, plays, !reportedOn) == off + [Stop] + tail;
    NoPowers(plays);
    PowersConcat(off, [Stop]);
    PowersConcat(off + [Stop], tail);
    PowersConcat(plays, on);
    assert Powers([Stop]) == [] by { assert [Stop][1..] == []; }
    if reportedOn {
      assert Powers(off) == [false] by { assert off[1..] == []; }
    }
    if !reportedOn {
      assert Powers(on) == [true] by { assert on[1..] == []; }
    }
    assert (off + [Stop] + tail)[|off|] == Stop;
  }

  lemma {:induction false} NoPowers(actions: seq<Action>)
    requires forall a :: a in actions ==> !a.Power?
    ensures Powers(actions) == []
  {
    if actions != [] {
      assert actions[0] in actions;
      NoPowers(actions[1..]);
    }
  }

  /** Appending the power-off and stop, then (for a mapped key) the plays and
      the power-on, appends ReadActions. */
  lemma ReadActionsAfter(start: seq<Action>, before: seq<Action>, after: seq<Action>,
                         reportedOn: bool, mapped: bool, plays: seq<Action>, powerOn: bool)
    requires before == start + (if reportedOn then [Power(false)] else []) + [Stop]
    requires mapped ==> after == before + (plays + (if powerOn then [Power(true)] else []))
    requires !mapped ==> after == before
    ensures after == start + ReadActions(reportedOn, mapped, plays, powerOn)
  {
  }

  /** final.py:108-173. The ghost `scans` is every successful read so far. */
  class TimedPlayer {
    var lastScannedTag: Option<string>
    var lastScanTime: Option<real>
    const mapping: map<string, string>
    const audioFolder: string
    var log: seq<Action>
    ghost var scans: seq<TimedRead>

    /** The fields hold the last read's text and end time, or nothing
        before the first read: the session `WindowSession(scans)`
        (`WindowSessionIsLastRead`). */
    ghost predicate Valid()
      reads this`lastScannedTag, this`lastScanTime, this`scans
    {
      if scans == [] then lastScannedTag == None && lastScanTime == None
      else lastScannedTag == Some(scans[|scans| - 1].text) && lastScanTime == Some(scans[|scans| - 1].doneAt)
    }

    constructor (mapping: map<string, string>, audioFolder: string)
      ensures Valid() && scans == []
      ensures lastScannedTag == None && lastScanTime == None && log == []
      ensures this.mapping == mapping && this.audioFolder == audioFolder
    {
      lastScannedTag := None;
      lastScanTime := None;
      this.mapping := mapping;
      this.audioFolder := audioFolder;
      log := [];
      scans := [];
    }

    /** The threads a mapped read of final.py starts: its folder in
        track-number order, shuffled by the 30-second rule, and, when the
        power was reported off, the whole audio folder with the lock passed
        as the shuffle argument. */
    function Plays(albumInfo: string, shuffle: bool, reportedOn: bool, albumListing: seq<string>, globalListing: seq<string>): seq<Action>
      requires albumInfo in mapping
    {
      [StartThread(TrackNumberOrder(Join(audioFolder, mapping[albumInfo]), albumListing), Flag(shuffle))]
      + (if reportedOn then [] else [StartThread(TrackNumberOrder(audioFolder, globalListing), LockObject)])
    }

    /** The mapped branch of a read (final.py:150-170): the actions it appends. */
    method PlayMapped(albumInfo: string, shuffle: bool, reportedOn: bool,
                      albumListing: seq<string>, globalListing: seq<string>)
      returns (actions: seq<Action>)
      requires albumInfo in mapping
      ensures actions == Plays(albumInfo, shuffle, reportedOn, albumListing, globalListing)
        + (if !reportedOn then [Power(true)] else [])
    {
      var folder := Join(audioFolder, mapping[albumInfo]);
      var sortedSongs := TrackNumberOrder(folder, albumListing);
      actions := [StartThread(sortedSongs, Flag(shuffle))];
      if !reportedOn {
        var sortedGlobalSongs := TrackNumberOrder(audioFolder, globalListing);
        actions := actions + [StartThread(sortedGlobalSongs, LockObject)];
      }
      if !reportedOn {
        actions := actions + [Power(true)];
      }
    }

    /** The effects of one read whose key is `albumInfo` (final.py:138-170). */
    method HandleRead(albumInfo: string, shuffle: bool, reportedOn: bool,
                      albumListing: seq<string>, globalListing: seq<string>)
      modifies this`log
      ensures log == old(log) + ReadActions(reportedOn, Mapped(albumInfo, mapping),
                       if Mapped(albumInfo, mapping) then Plays(albumInfo, shuffle, reportedOn, albumListing, globalListing) else [],
                       !reportedOn)
    {
      if reportedOn {
        log := log + [Power(false)];
      }
      log := log + [Stop];
      ghost var before := log;
      if Mapped(albumInfo, mapping) {
        var actions := PlayMapped(albumInfo, shuffle, reportedOn, albumListing, globalListing);
        log := log + actions;
      }
      ReadActionsAfter(old(log), before, log, reportedOn, Mapped(albumInfo, mapping),
        if Mapped(albumInfo, mapping) then Plays(albumInfo, shuffle, reportedOn, albumListing, globalListing) else [],
        !reportedOn);
    }

    /** One read. `now` is the clock at line 154 and `doneAt` the clock at
        line 173. Every successful read, mapped or not, becomes the last
        scan, and is shuffled as `WindowShuffleAt` says of the reads so far. */
    method OnRead(idFound: bool, text: Option<string>, now: real, doneAt: real, reportedOn: bool,
                  albumListing: seq<string>, globalListing: seq<string>)
      requires Valid()
      modifies this`lastScannedTag, this`lastScanTime, this`log, this`scans
      ensures Valid()
      ensures !(idFound && text.Some?) ==>
        lastScannedTag == old(lastScannedTag) && lastScanTime == old(lastScanTime) && log == old(log)
        && scans == old(scans)
      ensures idFound && text.Some? ==> scans == old(scans) + [TimedRead(Strip(text.value), now, doneAt)]
      ensures idFound && text.Some? ==>
        WindowShuffle(old(lastScannedTag), old(lastScanTime), Strip(text.value), now) == WindowShuffleAt(scans, |scans| - 1)
      ensures idFound && text.Some? ==>
        var albumInfo := Strip(text.value);
        var mapped := Mapped(albumInfo, mapping);
        var shuffle := WindowShuffle(old(lastScannedTag), old(lastScanTime), albumInfo, now);
        lastScannedTag == Some(albumInfo) && lastScanTime == Some(doneAt)
        && log == old(log) + ReadActions(reportedOn, mapped,
                   if mapped then Plays(albumInfo, shuffle, reportedOn, albumListing, globalListing) else [],
                   !reportedOn)
    {
      if !(idFound && text.Some?) {
        return;
      }
      ReadText(TimedRead(Strip(text.value), now, doneAt), reportedOn, albumListing, globalListing);
    }

    /** A read whose stripped text is `r.text` (final.py:132-173): the
        30-second rule on the session, the read's effects, then the read
        becomes the last scan. */
    method ReadText(r: TimedRead, reportedOn: bool, albumListing: seq<string>, globalListing: seq<string>)
      requires Valid()
      modifies this`lastScannedTag, this`lastScanTime, this`log, this`scans
      ensures Valid() && scans == old(scans) + [r]
      ensures WindowShuffle(old(lastScannedTag), old(lastScanTime), r.text, r.now) == WindowShuffleAt(scans, |scans| - 1)
      ensures lastScannedTag == Some(r.text) && lastScanTime == Some(r.doneAt)
      ensures log == old(log) + ReadActions(reportedOn, Mapped(r.text, mapping),
                if Mapped(r.text, mapping)
                then Plays(r.text, WindowShuffle(old(lastScannedTag), old(lastScanTime), r.text, r.now), reportedOn, albumListing, globalListing)
                else [],
                !reportedOn)
    {
      var shuffle := WindowShuffle(lastScannedTag, lastScanTime, r.text, r.now);
      HandleRead(r.text, shuffle, reportedOn, albumListing, globalListing);
      Record(r);
    }

    /** final.py:172-173: the read becomes the last scan, with the time it
        ended; the 30-second rule on the old session is the session's rule
        for this read. */
    method Record(r: TimedRead)
      requires Valid()
      modifies this`lastScannedTag, this`lastScanTime, this`scans
      ensures Valid() && scans == old(scans) + [r]
      ensures lastScannedTag == Some(r.text) && lastScanTime == Some(r.doneAt)
      ensures TimedSession(lastScannedTag, lastScanTime) == WindowSession(scans)
      ensures WindowShuffle(old(lastScannedTag), old(lastScanTime), r.text, r.now) == WindowShuffleAt(scans, |scans| - 1)
    {
      WindowSessionIsLastRead(scans);
      WindowSnoc(scans, r);
      lastScannedTag := Some(r.text);
      lastScanTime := Some(r.doneAt);
      scans := scans + [r];
    }
  }

  /** The global-folder thread of final.py is handed the lock where a shuffle
      flag belongs; a lock is truthy, so the thread shuffles, and what it
      plays is still each path of the folder once. */
  method RunGlobalThread(folder: string, globalListing: seq<string>, picks: seq<nat>) returns (played: seq<string>)
    requires ShuffleDraws(picks, |TrackNumberOrder(folder, globalListing)|)
    ensures Truthy(LockObject)
    ensures multiset(played) == multiset(FlacPaths(folder, globalListing))
  {
    played := RunAudioPlayerThread(TrackNumberOrder(folder, globalListing), LockObject, picks);
    TrackNumberOrderSpec(folder, globalListing);
  }

  /** new.py:95-156, for a read that succeeds. */
  class LockedPlayer {
    var lastScannedTag: Option<string>
    const mapping: map<string, string>
    const audioFolder: string
    var log: seq<Action>

    constructor (mapping: map<string, string>, audioFolder: string)
      ensures lastScannedTag == None && log == [] && this.mapping == mapping && this.audioFolder == audioFolder
    {
      lastScannedTag := None;
      this.mapping := mapping;
      this.audioFolder := audioFolder;
      log := [];
    }

    /** The locked threads a mapped read of new.py starts: its folder in
        track-number order, then the audio folder's when the power was
        reported off. */
    function Plays(albumInfo: string, reportedOn: bool, albumListing: seq<string>, globalListing: seq<string>): seq<Action>
      requires albumInfo in mapping
    {
      [StartLockedThread(TrackNumberOrder(Join(audioFolder, mapping[albumInfo]), albumListing))]
      + (if reportedOn then [] else [StartLockedThread(TrackNumberOrder(audioFolder, globalListing))])
    }

    /** The mapped branch of a read (new.py:134-154): the actions it appends. */
    method PlayMapped(albumInfo: string, reportedOn: bool, albumListing: seq<string>, globalListing: seq<string>)
      returns (actions: seq<Action>)
      requires albumInfo in mapping
      ensures actions == Plays(albumInfo, reportedOn, albumListing, globalListing)
        + (if !reportedOn then [Power(true)] else [])
    {
      var folder := Join(audioFolder, mapping[albumInfo]);
      actions := [StartLockedThread(TrackNumberOrder(folder, albumListing))];
      if !reportedOn {
        actions := actions + [StartLockedThread(TrackNumberOrder(audioFolder, globalListing))];
      }
      if !reportedOn {
        actions := actions + [Power(true)];
      }
    }

    /** The effects of one read whose key is `albumInfo` (new.py:124-154). */
    method HandleRead(albumInfo: string, reportedOn: bool, albumListing: seq<string>, globalListing: seq<string>)
      modifies this`log
      ensures log == old(log) + ReadActions(reportedOn, Mapped(albumInfo, mapping),
                       if Mapped(albumInfo, mapping) then Plays(albumInfo, reportedOn, albumListing, globalListing) else [],
                       !reportedOn)
    {
      if reportedOn {
        log := log + [Power(false)];
      }
      log := log + [Stop];
      ghost var before := log;
      if Mapped(albumInfo, mapping) {
        var actions := PlayMapped(albumInfo, reportedOn, albumListing, globalListing);
        log := log + actions;
      }
      ReadActionsAfter(old(log), before, log, reportedOn, Mapped(albumInfo, mapping),
        if Mapped(albumInfo, mapping) then Plays(albumInfo, reportedOn, albumListing, globalListing) else [],
        !reportedOn);
    }

    /** Every successful read becomes the last tag. */
    method OnRead(idFound: bool, text: Option<string>, reportedOn: bool,
                  albumListing: seq<string>, globalListing: seq<string>)
      modifies this`lastScannedTag, this`log
      ensures !(idFound && text.Some?) ==> lastScannedTag == old(lastScannedTag) && log == old(log)
      ensures idFound && text.Some? ==>
        var albumInfo := Strip(text.value);
        var mapped := Mapped(albumInfo, mapping);
        lastScannedTag == Some(albumInfo)
        && log == old(log) + ReadActions(reportedOn, mapped,
                   if mapped then Plays(albumInfo, reportedOn, albumListing, globalListing) else [],
                   !reportedOn)
    {
      if !(idFound && text.Some?) {
        return;
      }
      var albumInfo := Strip(text.value);
      HandleRead(albumInfo, reportedOn, albumListing, globalListing);
      lastScannedTag := Some(albumInfo);
    }
  }

  class UnpaddedUidPlayer {
    var lastScannedTag: Option<string>
    const mapping: map<string, string>
    const audioFolder: string
    var log: seq<Action>

    constructor (mapping: map<string, string>, audioFolder: string)
      ensures lastScannedTag == None && log == [] && this.mapping == mapping && this.audioFolder == audioFolder
    {
      lastScannedTag := None;
      this.mapping := mapping;
      this.audioFolder := audioFolder;
      log := [];
    }

    /** What a mapped read plays: its folder's `.flac` paths by
        `(key, path)`, then the audio folder's when the power was reported off. */
    function Plays(albumInfo: string, reportedOn: bool, albumListing: seq<string>, globalListing: seq<string>): seq<Action>
      requires albumInfo in mapping
    {
      [PlaySongs(TrackNumberOrder(Join(audioFolder, mapping[albumInfo]), albumListing))]
      + (if reportedOn then [] else [PlaySongs(TrackNumberOrder(audioFolder, globalListing))])
    }

    /** The mapped branch of a read (final-broken-modified.py:106-122): the
        actions it appends. */
    method PlayMapped(albumInfo: string, reportedOn: bool, albumListing: seq<string>, globalListing: seq<string>)
      returns (actions: seq<Action>)
      requires albumInfo in mapping
      ensures actions == Plays(albumInfo, reportedOn, albumListing, globalListing)
        + (if !reportedOn then [Power(true)] else [])
    {
      var folder := Join(audioFolder, mapping[albumInfo]);
      var played := PlayAllSongsInOrderByKey(folder, albumListing);
      TrackNumberOrderIsPathOrder(folder, albumListing);
      actions := [PlaySongs(played)];
      if !reportedOn {
        played := PlayAllSongsInOrderByKey(audioFolder, globalListing);
        TrackNumberOrderIsPathOrder(audioFolder, globalListing);
        actions := actions + [PlaySongs(played)];
      }
      if !reportedOn {
        actions := actions + [Power(true)];
      }
    }

    /** The effects of one read whose key is `albumInfo`
        (final-broken-modified.py:93-122). */
    method HandleRead(albumInfo: string, reportedOn: bool, albumListing: seq<string>, globalListing: seq<string>)
      modifies this`log
      ensures log == old(log) + ReadActions(reportedOn, Mapped(albumInfo, mapping),
                       if Mapped(albumInfo, mapping) then Plays(albumInfo, reportedOn, albumListing, globalListing) else [],
                       !reportedOn)
    {
      if reportedOn {
        log := log + [Power(false)];
      }
      log := log + [Stop];
      ghost var before := log;
      if Mapped(albumInfo, mapping) {
        var actions := PlayMapped(albumInfo, reportedOn, albumListing, globalListing);
        log := log + actions;
      }
      ReadActionsAfter(old(log), before, log, reportedOn, Mapped(albumInfo, mapping),
        if Mapped(albumInfo, mapping) then Plays(albumInfo, reportedOn, albumListing, globalListing) else [],
        !reportedOn);
    }

    /** The key is the UID in unpadded hex; every detected UID becomes the
        last tag. */
    method OnRead(uid: Option<seq<byte>>, reportedOn: bool, albumListing: seq<string>, globalListing: seq<string>)
      modifies this`lastScannedTag, this`log
      ensures uid.None? ==> lastScannedTag == old(lastScannedTag) && log == old(log)
      ensures uid.Some? ==>
        var albumInfo := UnpaddedHex(uid.value);
        var mapped := Mapped(albumInfo, mapping);
        lastScannedTag == Some(albumInfo)
        && log == old(log) + ReadActions(reportedOn, mapped,
                   if mapped then Plays(albumInfo, reportedOn, albumListing, globalListing) else [],
                   !reportedOn)
    {
      if uid.None? {
        return;
      }
      var tagUid := UnpaddedHex(uid.value);
      var albumInfo := tagUid;
      HandleRead(albumInfo, reportedOn, albumListing, globalListing);
      lastScannedTag := Some(albumInfo);
    }
  }

  /** test-pn532.py:73-115, with `uid.hex()` as the key. */
  class UidPlayer {
    var lastScannedTag: Option<string>
    var lastScanTime: Option<real>
    const mapping: map<string, string>
    const audioFolder: string
    var log: seq<Action>

    constructor (mapping: map<string, string>, audioFolder: string)
      ensures lastScannedTag == None && lastScanTime == None && log == []
      ensures this.mapping == mapping && this.audioFolder == audioFolder
    {
      lastScannedTag := None;
      lastScanTime := None;
      this.mapping := mapping;
      this.audioFolder := audioFolder;
      log := [];
    }

    /** Whether a mapped read raises IndexError: its folder has no `.flac`
        file, or the power was reported off and the audio folder has none. */
    predicate Raises(albumInfo: string, reportedOn: bool, albumListing: seq<string>, globalListing: seq<string>)
      requires albumInfo in mapping
    {
      SortedPaths(Join(audioFolder, mapping[albumInfo]), albumListing) == []
      || (!reportedOn && SortedPaths(audioFolder, globalListing) == [])
    }

    /** What a mapped read that does not raise plays: the first path of its
        folder's sorted `.flac` list, then the first of the audio folder's
        when the power was reported off; `play_audio` stops all audio
        before each (test-pn532.py:36-39). */
    function Plays(albumInfo: string, reportedOn: bool, albumListing: seq<string>, globalListing: seq<string>): seq<Action>
      requires albumInfo in mapping && !Raises(albumInfo, reportedOn, albumListing, globalListing)
    {
      [Stop, PlaySongs([SortedPaths(Join(audioFolder, mapping[albumInfo]), albumListing)[0]])]
      + (if reportedOn then [] else [Stop, PlaySongs([SortedPaths(audioFolder, globalListing)[0]])])
    }

    /** What a mapped read has done when it raises: stopped all audio and
        played the album's first song, unless the album itself has no
        `.flac` file (the index fails before `play_audio` is called). */
    function PlayedBeforeRaise(albumInfo: string, albumListing: seq<string>): seq<Action>
      requires albumInfo in mapping
    {
      var sortedSongs := SortedPaths(Join(audioFolder, mapping[albumInfo]), albumListing);
      if sortedSongs == [] then [] else [Stop, PlaySongs([sortedSongs[0]])]
    }

    /** The mapped branch of a read (test-pn532.py:97-112): whether it
        raises, and the actions it takes up to the end or up to the raise. */
    method PlayMapped(albumInfo: string, reportedOn: bool, requeried: bool,
                      albumListing: seq<string>, globalListing: seq<string>)
      returns (raised: bool, actions: seq<Action>)
      requires albumInfo in mapping
      ensures raised == Raises(albumInfo, reportedOn, albumListing, globalListing)
      ensures raised ==> actions == PlayedBeforeRaise(albumInfo, albumListing)
      ensures !raised ==>
        actions == Plays(albumInfo, reportedOn, albumListing, globalListing)
          + (if !requeried then [Power(true)] else [])
    {
      raised := false;
      actions := [];
      var folder := Join(audioFolder, mapping[albumInfo]);
      var sortedSongs := SortedPaths(folder, albumListing);
      if sortedSongs == [] {
        raised := true;
        return;
      }
      actions := [Stop, PlaySongs([sortedSongs[0]])];
      if !reportedOn {
        var sortedGlobalSongs := SortedPaths(audioFolder, globalListing);
        if sortedGlobalSongs == [] {
          raised := true;
          return;
        }
        actions := actions + [Stop, PlaySongs([sortedGlobalSongs[0]])];
      }
      if !requeried {
        actions := actions + [Power(true)];
      }
    }

    /** One read of a tag whose key is `albumInfo` (test-pn532.py:89-112):
        whether it raises, and the actions it logs up to the end or up to
        the raise. Power goes on when the second report (`requeried`) says
        off. */
    method HandleRead(albumInfo: string, reportedOn: bool, requeried: bool,
                      albumListing: seq<string>, globalListing: seq<string>)
      returns (raised: bool)
      modifies this`log
      ensures raised <==> Mapped(albumInfo, mapping) && Raises(albumInfo, reportedOn, albumListing, globalListing)
      ensures raised ==>
        log == old(log) + ((if reportedOn then [Power(false)] else []) + [Stop]
             + PlayedBeforeRaise(albumInfo, albumListing))
      ensures !raised ==>
        var mapped := Mapped(albumInfo, mapping);
        log == old(log) + ReadActions(reportedOn, mapped,
             if mapped then Plays(albumInfo, reportedOn, albumListing, globalListing) else [],
             !requeried)
    {
      raised := false;
      if reportedOn {
        log := log + [Power(false)];
      }
      log := log + [Stop];
      ghost var before := log;
      if Mapped(albumInfo, mapping) {
        var actions;
        raised, actions := PlayMapped(albumInfo, reportedOn, requeried, albumListing, globalListing);
        log := log + actions;
        if raised {
          return;
        }
      }
      ReadActionsAfter(old(log), before, log, reportedOn, Mapped(albumInfo, mapping),
        if Mapped(albumInfo, mapping) then Plays(albumInfo, reportedOn, albumListing, globalListing) else [],
        !requeried);
    }

    /** A read loop iteration (test-pn532.py:82-115). An IndexError is not
        caught: `raised` is set, what was played before it stays in the log,
        and the session is left as it was. */
    method OnRead(uid: Option<seq<byte>>, now: real, reportedOn: bool, requeried: bool,
                  albumListing: seq<string>, globalListing: seq<string>)
      returns (raised: bool)
      modifies this`lastScannedTag, this`lastScanTime, this`log
      ensures uid.None? ==>
        !raised && lastScannedTag == old(lastScannedTag) && lastScanTime == old(lastScanTime) && log == old(log)
      ensures uid.Some? ==>
        var albumInfo := UidHex(uid.value);
        raised <==> Mapped(albumInfo, mapping) && Raises(albumInfo, reportedOn, albumListing, globalListing)
      ensures raised ==>
        var albumInfo := UidHex(uid.value);
        lastScannedTag == old(lastScannedTag) && lastScanTime == old(lastScanTime)
        && log == old(log) + ((if reportedOn then [Power(false)] else []) + [Stop]
             + PlayedBeforeRaise(albumInfo, albumListing))
      ensures uid.Some? && !raised ==>
        var albumInfo := UidHex(uid.value);
        var mapped := Mapped(albumInfo, mapping);
        lastScannedTag == Some(albumInfo) && lastScanTime == Some(now)
        && log == old(log) + ReadActions(reportedOn, mapped,
             if mapped then Plays(albumInfo, reportedOn, albumListing, globalListing) else [],
             !requeried)
    {
      raised := false;
      if uid.None? {
        return;
      }
      var albumInfo := UidHex(uid.value);
      raised := HandleRead(albumInfo, reportedOn, requeried, albumListing, globalListing);
      if raised {
        return;
      }
      lastScannedTag := Some(albumInfo);
      lastScanTime := Some(now);
    }
  }

  /** The key of test-pn532.py is never empty for a UID with bytes, so the
      gate is just membership; and two UIDs share a key only when equal. */
  lemma UidKeyGate(uid: seq<byte>, other: seq<byte>, mapping: map<string, string>)
    requires uid != []
    ensures Mapped(UidHex(uid), mapping) <==> UidHex(uid) in mapping
    ensures UidHex(uid) == UidHex(other) ==> uid == other
  {
    if UidHex(uid) == UidHex(other) {
      UidHexInjective(uid, other);
    }
  }
}
