/** The counter-driven players: perfect.py, complete-bt.py, shuffle.py and
    shuffle-bluetooth.py (the alternating counter) and done.py (the
    run-length counter). Each keeps `last_scanned_tag` and
    `consecutive_scans` in globals; here they are the fields of one object
    per program, and every call the program makes on the player, the radio
    or the audio folder is appended to `log`. `tags` maps a tag's text to
    its `config['tags'][tag]['folder']`. */
module Jukebox {
  import opened Optional
  import opened ScanCounter
  import opened Bluetooth
  import opened TagData
  import opened Actions

  /** `if tag_data:`: the scan returned a non-empty string. */
  predicate TagPresent(tagData: Option<string>)
  {
    tagData.Some? && tagData.value != ""
  }

  /** The actions `handle_new_tag` of the alternating scripts takes:
      random play for a new tag, a stop when the player reports playing,
      then the mapped album with the shuffle flag, or random play. */
  function AlternatingActions(tags: map<string, string>, s: Session, tag: string, isPlaying: bool): seq<Action>
  {
    (if s.lastScannedTag == Some(tag) then [] else [PlayAllRandom])
    + (if isPlaying then [Stop] else [])
    + [if tag in tags then PlayAlbum(tags[tag], AlternatingStep(s, tag).shuffle) else PlayAllRandom]
  }

  /** A mapped tag ends with its album, shuffled as the counter says, and an
      unmapped one never plays an album, so its shuffle flag is ignored; a
      new tag starts random play before anything else. */
  lemma AlternatingActionsSpec(tags: map<string, string>, s: Session, tag: string, isPlaying: bool)
    ensures var acts := AlternatingActions(tags, s, tag, isPlaying);
      && acts[|acts| - 1] == (if tag in tags then PlayAlbum(tags[tag], AlternatingStep(s, tag).shuffle) else PlayAllRandom)
      && (forall i :: 0 <= i < |acts| - 1 ==> acts[i] == PlayAllRandom || acts[i] == Stop)
      && (Stop in acts <==> isPlaying)
      && (s.lastScannedTag != Some(tag) ==> acts[0] == PlayAllRandom)
      && (tag !in tags ==> forall a :: a in acts ==> !a.PlayAlbum?)
  {
  }

  /** perfect.py, complete-bt.py, shuffle.py and shuffle-bluetooth.py. */
  class AlternatingPlayer {
    var lastScannedTag: Option<string>
    var consecutiveScans: int
    const tags: map<string, string>
    var log: seq<Action>

    /** The counter stays in {0, 1, 2}. */
    ghost predicate Valid()
      reads this
    {
      0 <= consecutiveScans <= 2
    }

    function Session(): Session
      reads this
    {
      ScanCounter.Session(lastScannedTag, consecutiveScans)
    }

    /** perfect.py:14-15: no tag yet, counter 0. */
    constructor (tags: map<string, string>)
      ensures Valid() && Session() == Initial && this.tags == tags && log == []
    {
      lastScannedTag := None;
      consecutiveScans := 0;
      this.tags := tags;
      log := [];
    }

    /** `handle_new_tag` (perfect.py:101-123); `isPlaying` is what
        `player.is_playing()` reports at line 114. */
    method HandleNewTag(tag: string, isPlaying: bool)
      requires Valid()
      modifies this`lastScannedTag, this`consecutiveScans, this`log
      ensures Valid()
      ensures Session() == AlternatingStep(old(Session()), tag).next
      ensures log == old(log) + AlternatingActions(tags, old(Session()), tag, isPlaying)
    {
      ghost var before := Session();
      var shuffle := false;
      if Some(tag) == lastScannedTag {
        consecutiveScans := consecutiveScans + 1;
        if consecutiveScans == 2 {
          shuffle := true;
        } else {
          consecutiveScans := 1;
        }
      } else {
        log := log + [PlayAllRandom];
      }
      if isPlaying {
        log := log + [Stop];
      }
      if tag in tags {
        log := log + [PlayAlbum(tags[tag], shuffle)];
      } else {
        log := log + [PlayAllRandom];
      }
      lastScannedTag := Some(tag);
      assert shuffle == AlternatingStep(before, tag).shuffle;
    }

    /** One pass of `tag_scanning_loop` in perfect.py:150-161: nothing while
        switch 2 reads LOW, otherwise scan and handle a non-empty tag. */
    method GatedScanTick(switch2: int, uidFound: bool, page: Option<seq<byte>>, isPlaying: bool)
      requires Valid()
      modifies this`lastScannedTag, this`consecutiveScans, this`log
      ensures Valid()
      ensures var tagData := ScanTag(uidFound, page);
        if switch2 != Low && TagPresent(tagData) then
          Session() == AlternatingStep(old(Session()), tagData.value).next
          && log == old(log) + AlternatingActions(tags, old(Session()), tagData.value, isPlaying)
        else Session() == old(Session()) && log == old(log)
    {
      if switch2 == Low {
        return;
      }
      ScanTick(uidFound, page, isPlaying);
    }

    /** One pass of `tag_scanning_loop` in complete-bt.py:138-143 (and the
        same loop of shuffle.py and shuffle-bluetooth.py). */
    method ScanTick(uidFound: bool, page: Option<seq<byte>>, isPlaying: bool)
      requires Valid()
      modifies this`lastScannedTag, this`consecutiveScans, this`log
      ensures Valid()
      ensures var tagData := ScanTag(uidFound, page);
        if TagPresent(tagData) then
          Session() == AlternatingStep(old(Session()), tagData.value).next
          && log == old(log) + AlternatingActions(tags, old(Session()), tagData.value, isPlaying)
        else Session() == old(Session()) && log == old(log)
    {
      var tagData := ScanTag(uidFound, page);
      if tagData.Some? && tagData.value != "" {
        HandleNewTag(tagData.value, isPlaying);
      }
    }

    /** Restart random play when the player is idle and some tag has been
        scanned (perfect.py:182-183, complete-bt.py:154-155,
        shuffle-bluetooth.py:140-141). */
    method ReplayIfIdle(isPlaying: bool)
      modifies this`log
      ensures log == old(log) + (if !isPlaying && lastScannedTag.Some? then [PlayAllRandom] else [])
    {
      if !isPlaying && lastScannedTag != None {
        log := log + [PlayAllRandom];
      }
    }

    /** perfect.py:170-177: the start-up power reconcile. */
    method PerfectStartup(switch1: int, powered: bool)
      modifies this`log
      ensures log == old(log) + PowerActions(Reconcile(switch1, powered))
    {
      if switch1 == Low && powered {
        log := log + [Power(false)];
      } else if switch1 == High && !powered {
        log := log + [Power(true)];
      }
    }

    /** One pass of perfect.py's main loop (179-204): replay when idle,
        reconcile the power with switch 1, and when switch 2 reads LOW stop
        the player and forget the last tag, keeping the counter. */
    method PerfectMainTick(isPlaying: bool, switch1: int, switch2: int, powered: bool)
      requires Valid()
      modifies this`lastScannedTag, this`log
      ensures Valid()
      ensures consecutiveScans == old(consecutiveScans)
      ensures lastScannedTag == if switch2 == Low then None else old(lastScannedTag)
      ensures log == old(log) + (if !isPlaying && old(lastScannedTag).Some? then [PlayAllRandom] else [])
        + PowerActions(Reconcile(switch1, powered)) + (if switch2 == Low then [Stop] else [])
    {
      ReplayIfIdle(isPlaying);
      PerfectStartup(switch1, powered);
      if switch2 == Low {
        log := log + [Stop];
        lastScannedTag := None;
      }
    }

    /** One pass of complete-bt.py's main loop (150-166): replay when idle,
        then a power command from the switch alone. */
    method CompleteBtMainTick(isPlaying: bool, switch: int)
      modifies this`log
      ensures log == old(log) + (if !isPlaying && lastScannedTag.Some? then [PlayAllRandom] else [])
        + [Power(SwitchCommand(switch))]
    {
      ReplayIfIdle(isPlaying);
      if switch == Low {
        log := log + [Power(false)];
      } else {
        log := log + [Power(true)];
      }
    }

    /** One pass of shuffle.py's main loop (146-151): random play whenever
        the player is idle, whether or not a tag was ever scanned. */
    method ShuffleMainTick(isPlaying: bool)
      modifies this`log
      ensures log == old(log) + (if !isPlaying then [PlayAllRandom] else [])
    {
      if !isPlaying {
        log := log + [PlayAllRandom];
      }
    }

    /** One pass of shuffle.py's `check_external_switch` (130-137). */
    method ShuffleSwitchTick(switch: int)
      modifies this`log
      ensures log == old(log) + [Power(SwitchCommand(switch))]
    {
      var isOn := switch != Low;
      log := log + [Power(isOn)];
    }

    /** One pass of shuffle-bluetooth.py's main loop (135-148): replay when
        idle, then power on for a truthy switch reading, off otherwise. */
    method ShuffleBluetoothMainTick(isPlaying: bool, switch: int)
      modifies this`log
      ensures log == old(log) + (if !isPlaying && lastScannedTag.Some? then [PlayAllRandom] else [])
        + [Power(TruthySwitchCommand(switch))]
    {
      ReplayIfIdle(isPlaying);
      if switch != 0 {
        log := log + [Power(true)];
      } else {
        log := log + [Power(false)];
      }
    }
  }

  /** The literal folder done.py plays for an unmapped tag. */
  const AllSongsFolder := "path_to_all_songs_folder"

  /** The actions of done.py's `handle_new_tag`: a stop when playing, then
      an album with the run-length shuffle flag. */
  function RunLengthActions(tags: map<string, string>, s: Session, tag: string, isPlaying: bool): seq<Action>
  {
    (if isPlaying then [Stop] else [])
    + [PlayAlbum(if tag in tags then tags[tag] else AllSongsFolder, RunLengthStep(s, tag).shuffle)]
  }

  /** done.py. The ghost `scanned` is every tag handled so far. */
  class RunLengthPlayer {
    var lastScannedTag: Option<string>
    var consecutiveScans: int
    const tags: map<string, string>
    var log: seq<Action>
    ghost var scanned: seq<string>

    /** The session is the one the handled tags lead to. */
    ghost predicate Valid()
      reads this
    {
      Session() == RunLengthSession(scanned)
    }

    function Session(): Session
      reads this
    {
      ScanCounter.Session(lastScannedTag, consecutiveScans)
    }

    /** done.py:12-13. */
    constructor (tags: map<string, string>)
      ensures Valid() && scanned == [] && this.tags == tags && log == []
    {
      lastScannedTag := None;
      consecutiveScans := 0;
      this.tags := tags;
      log := [];
      scanned := [];
    }

    /** `handle_new_tag` (done.py:56-76). The counter is then the length of
        the run of identical tags just scanned. */
    method HandleNewTag(tag: string, isPlaying: bool)
      requires Valid()
      modifies this`lastScannedTag, this`consecutiveScans, this`log, this`scanned
      ensures Valid() && scanned == old(scanned) + [tag]
      ensures lastScannedTag == Some(tag) && consecutiveScans == TrailingRun(scanned)
      ensures log == old(log) + RunLengthActions(tags, old(Session()), tag, isPlaying)
    {
      ghost var before := Session();
      var shuffle := false;
      if Some(tag) == lastScannedTag {
        consecutiveScans := consecutiveScans + 1;
        if consecutiveScans == 2 {
          shuffle := true;
        }
      } else {
        consecutiveScans := 1;
      }
      if isPlaying {
        log := log + [Stop];
      }
      if tag in tags {
        log := log + [PlayAlbum(tags[tag], shuffle)];
      } else {
        log := log + [PlayAlbum(AllSongsFolder, shuffle)];
      }
      lastScannedTag := Some(tag);
      scanned := scanned + [tag];
      assert scanned[..|scanned| - 1] == old(scanned);
      RunLengthCountsRun(scanned);
    }

    /** One pass of done.py's `tag_scanning_loop` (93-98): only a non-empty
        tag reaches the handler. */
    method ScanTick(uidFound: bool, page: Option<seq<byte>>, isPlaying: bool)
      requires Valid()
      modifies this`lastScannedTag, this`consecutiveScans, this`log, this`scanned
      ensures Valid()
      ensures var tagData := ScanTag(uidFound, page);
        if TagPresent(tagData) then
          scanned == old(scanned) + [tagData.value]
          && log == old(log) + RunLengthActions(tags, old(Session()), tagData.value, isPlaying)
        else scanned == old(scanned) && Session() == old(Session()) && log == old(log)
    {
      var tagData := ScanTag(uidFound, page);
      if tagData.Some? && tagData.value != "" {
        HandleNewTag(tagData.value, isPlaying);
      }
    }
  }

  /** With done.py every handled tag is non-empty, and the album played
      shuffled is exactly the second scan of a run. */
  lemma RunLengthShufflesSecondScan(tags: map<string, string>, scanned: seq<string>, tag: string, isPlaying: bool)
    ensures var acts := RunLengthActions(tags, RunLengthSession(scanned), tag, isPlaying);
      acts[|acts| - 1].shuffle <==> TrailingRun(scanned + [tag]) == 2
  {
    var all := scanned + [tag];
    assert all[..|all| - 1] == scanned;
    RunLengthCountsRun(all);
  }
}
