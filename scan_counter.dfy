/** The rules that decide from the previous scan whether a scan plays in
    order or shuffled, as pure steps over the session (`last_scanned_tag`
    plus `consecutive_scans`, or plus `last_scan_time`). The scripts keep
    this session in module globals; module Jukebox keeps it in objects whose
    methods follow these steps. */
module ScanCounter {
  import opened Optional

  datatype Session = Session(lastScannedTag: Option<string>, consecutiveScans: int)

  /** `last_scanned_tag = None`, `consecutive_scans = 0`. */
  const Initial := Session(None, 0)

  /** The shuffle flag a scan produces and the session it leaves. */
  datatype Step = Step(shuffle: bool, next: Session)

  /** `handle_new_tag` of perfect.py, complete-bt.py, shuffle.py and
      shuffle-bluetooth.py: the counter counts only repeats, is never reset
      on a new tag, and falls back to 1 whenever it passes 2. */
  function AlternatingStep(s: Session, tag: string): Step
  {
    if s.lastScannedTag == Some(tag) then
      var count := s.consecutiveScans + 1;
      if count == 2 then Step(true, Session(Some(tag), 2)) else Step(false, Session(Some(tag), 1))
    else Step(false, Session(Some(tag), s.consecutiveScans))
  }

  /** A new tag plays in order and leaves the counter alone; a repeat adds
      one, shuffles iff that makes 2, and otherwise resets the counter to 1. */
  lemma AlternatingStepSpec(s: Session, tag: string)
    ensures AlternatingStep(s, tag).next.lastScannedTag == Some(tag)
    ensures s.lastScannedTag != Some(tag) ==>
      !AlternatingStep(s, tag).shuffle && AlternatingStep(s, tag).next.consecutiveScans == s.consecutiveScans
    ensures s.lastScannedTag == Some(tag) ==>
      (AlternatingStep(s, tag).shuffle <==> s.consecutiveScans == 1)
      && AlternatingStep(s, tag).next.consecutiveScans == (if s.consecutiveScans == 1 then 2 else 1)
  {
  }

  /** The session after `handle_new_tag` has seen `tags`, from program start. */
  function AlternatingSession(tags: seq<string>): Session
  {
    if tags == [] then Initial
    else AlternatingStep(AlternatingSession(tags[..|tags| - 1]), tags[|tags| - 1]).next
  }

  /** Whether the last of `tags` was played shuffled. */
  function AlternatingShuffle(tags: seq<string>): bool
    requires tags != []
  {
    AlternatingStep(AlternatingSession(tags[..|tags| - 1]), tags[|tags| - 1]).shuffle
  }

  /** `consecutive_scans` starts at 0 and is always 0, 1 or 2. */
  lemma {:induction false} AlternatingCounterRange(tags: seq<string>)
    ensures 0 <= AlternatingSession(tags).consecutiveScans <= 2
    ensures tags != [] ==> AlternatingSession(tags).lastScannedTag == Some(tags[|tags| - 1])
  {
    if tags != [] {
      AlternatingCounterRange(tags[..|tags| - 1]);
    }
  }

  /** Scanning `tag` after `tags` is one step from the session `tags` left. */
  lemma AlternatingSnoc(tags: seq<string>, tag: string)
    ensures AlternatingSession(tags + [tag]) == AlternatingStep(AlternatingSession(tags), tag).next
    ensures AlternatingShuffle(tags + [tag]) == AlternatingStep(AlternatingSession(tags), tag).shuffle
  {
    assert (tags + [tag])[..|tags|] == tags;
  }

  function Repeat(tag: string, n: nat): (r: seq<string>)
    ensures |r| == n && forall i :: 0 <= i < n ==> r[i] == tag
  {
    if n == 0 then [] else Repeat(tag, n - 1) + [tag]
  }

  /** From program start, scanning one tag `n` times leaves the counter at
      0 after the first scan, then alternating between 1 and 2. */
  lemma {:induction false} AlternatingRepeatSession(tag: string, n: nat)
    requires n >= 1
    ensures AlternatingSession(Repeat(tag, n)).lastScannedTag == Some(tag)
    ensures AlternatingSession(Repeat(tag, n)).consecutiveScans == if n == 1 then 0 else if n % 2 == 1 then 2 else 1
  {
    var prev := Repeat(tag, n - 1);
    AlternatingSnoc(prev, tag);
    var before := AlternatingSession(prev);
    AlternatingStepSpec(before, tag);
    if n > 1 {
      AlternatingRepeatSession(tag, n - 1);
      assert before.consecutiveScans == 1 <==> n % 2 == 1 by {
        assert n % 2 == 1 <==> (n - 1) % 2 == 0;
      }
    } else {
      assert prev == [];
    }
  }

  /** From program start, scanning one tag over and over shuffles on the
      3rd, 5th, 7th, ... scan and on no other. */
  lemma {:induction false} AlternatingRepeatPattern(tag: string, n: nat)
    requires n >= 1
    ensures AlternatingShuffle(Repeat(tag, n)) <==> n >= 3 && n % 2 == 1
  {
    var prev := Repeat(tag, n - 1);
    AlternatingSnoc(prev, tag);
    var before := AlternatingSession(prev);
    AlternatingStepSpec(before, tag);
    if n > 1 {
      AlternatingRepeatSession(tag, n - 1);
      assert before.consecutiveScans == 1 <==> n >= 3 && n % 2 == 1 by {
        assert n % 2 == 1 <==> (n - 1) % 2 == 0;
      }
    } else {
      assert prev == [];
    }
  }

  /** As written, from program start the second scan of the first tag is
      not shuffled: the counter was left at 0 by the first scan. */
  lemma AlternatingSecondScanInOrder(tag: string)
    ensures !AlternatingShuffle([tag, tag])
  {
    AlternatingRepeatPattern(tag, 2);
    assert Repeat(tag, 2) == [tag, tag];
  }

  /** As written, whether the second scan of a tag shuffles depends on the
      counter earlier tags left: after `a` it does not, after `a, a` (which
      left the counter at 2, then 1 on no reset) it does. */
  lemma AlternatingHistoryDecides()
    ensures !AlternatingShuffle(["a", "b", "b"])
    ensures AlternatingShuffle(["a", "a", "b", "b"])
  {
    var s1 := AlternatingSession(["a"]);
    assert ["a"][..0] == [];
    var s2 := AlternatingSession(["a", "a"]);
    AlternatingSnoc(["a"], "a");
    assert ["a"] + ["a"] == ["a", "a"];
    AlternatingSnoc(["a"], "b");
    assert ["a"] + ["b"] == ["a", "b"];
    AlternatingSnoc(["a", "b"], "b");
    assert ["a", "b"] + ["b"] == ["a", "b", "b"];
    AlternatingSnoc(["a", "a"], "b");
    assert ["a", "a"] + ["b"] == ["a", "a", "b"];
    AlternatingSnoc(["a", "a", "b"], "b");
    assert ["a", "a", "b"] + ["b"] == ["a", "a", "b", "b"];
  }

  /** `handle_new_tag` of done.py: a new tag resets the counter to 1; a
      repeat adds one; only the count 2 shuffles. */
  function RunLengthStep(s: Session, tag: string): Step
  {
    if s.lastScannedTag == Some(tag) then
      Step(s.consecutiveScans + 1 == 2, Session(Some(tag), s.consecutiveScans + 1))
    else Step(false, Session(Some(tag), 1))
  }

  function RunLengthSession(tags: seq<string>): Session
  {
    if tags == [] then Initial
    else RunLengthStep(RunLengthSession(tags[..|tags| - 1]), tags[|tags| - 1]).next
  }

  function RunLengthShuffle(tags: seq<string>): bool
    requires tags != []
  {
    RunLengthStep(RunLengthSession(tags[..|tags| - 1]), tags[|tags| - 1]).shuffle
  }

  /** The number of identical scans at the end of `tags`. */
  function TrailingRun(tags: seq<string>): nat
  {
    if tags == [] then 0
    else if |tags| == 1 || tags[|tags| - 2] != tags[|tags| - 1] then 1
    else TrailingRun(tags[..|tags| - 1]) + 1
  }

  /** done.py keeps `consecutive_scans` equal to the length of the current run
      of identical scans, and shuffles exactly on the second scan of a run. */
  lemma {:induction false} RunLengthCountsRun(tags: seq<string>)
    ensures RunLengthSession(tags).consecutiveScans == TrailingRun(tags)
    ensures tags != [] ==> RunLengthSession(tags).lastScannedTag == Some(tags[|tags| - 1])
    ensures tags != [] ==> (RunLengthShuffle(tags) <==> TrailingRun(tags) == 2)
  {
    if tags != [] {
      var front := tags[..|tags| - 1];
      RunLengthCountsRun(front);
      if |tags| >= 2 {
        assert front[|front| - 1] == tags[|tags| - 2];
        assert front[..|front| - 1] == tags[..|tags| - 2];
      }
    }
  }

  /** With done.py's rule the first scan of a tag other than the last one is
      in order and the scan right after it, of the same tag, is shuffled. */
  lemma RunLengthSecondScanShuffles(tags: seq<string>, tag: string)
    requires tags == [] || tags[|tags| - 1] != tag
    ensures !RunLengthShuffle(tags + [tag])
    ensures RunLengthShuffle(tags + [tag, tag])
  {
    var once, twice := tags + [tag], tags + [tag, tag];
    assert once[..|once| - 1] == tags;
    assert twice[..|twice| - 1] == once;
    RunLengthCountsRun(once);
    RunLengthCountsRun(twice);
  }

  /** final.py:154: `last_scanned_tag == album_info and last_scan_time and
      time.time() - last_scan_time <= 30`; a time of 0.0 is falsy. */
  function WindowShuffle(lastScannedTag: Option<string>, lastScanTime: Option<real>, text: string, now: real): bool
  {
    lastScannedTag == Some(text) && lastScanTime.Some? && lastScanTime.value != 0.0
    && now - lastScanTime.value <= 30.0
  }

  /** A successful read of final.py: the stripped text, the clock when the
      shuffle rule is evaluated (line 154) and the clock when the read
      ends and is recorded (line 173). */
  datatype TimedRead = TimedRead(text: string, now: real, doneAt: real)

  /** final.py's `last_scanned_tag` and `last_scan_time`. */
  datatype TimedSession = TimedSession(lastScannedTag: Option<string>, lastScanTime: Option<real>)

  const TimedInitial := TimedSession(None, None)

  datatype TimedStep = TimedStep(shuffle: bool, next: TimedSession)

  /** One read: the 30-second rule on the session, then every read, mapped
      or not, becomes the last scan with the time it ended. */
  function WindowStep(s: TimedSession, r: TimedRead): TimedStep
  {
    TimedStep(WindowShuffle(s.lastScannedTag, s.lastScanTime, r.text, r.now),
              TimedSession(Some(r.text), Some(r.doneAt)))
  }

  /** The session after `scans`, from program start. */
  function WindowSession(scans: seq<TimedRead>): TimedSession
  {
    if scans == [] then TimedInitial
    else WindowStep(WindowSession(scans[..|scans| - 1]), scans[|scans| - 1]).next
  }

  /** Whether read `k` of a session that began with `scans[0]` is shuffled. */
  function WindowShuffleAt(scans: seq<TimedRead>, k: nat): bool
    requires k < |scans|
  {
    WindowStep(WindowSession(scans[..k]), scans[k]).shuffle
  }

  /** A read shuffles iff it repeats the text of the read just before it,
      that read ended at a non-zero clock, and no more than 30 s passed
      from that end to this read's check. So the first read and a read of
      a different text never shuffle. */
  lemma WindowShuffleAtSpec(scans: seq<TimedRead>, k: nat)
    requires k < |scans|
    ensures WindowShuffleAt(scans, k) <==>
      k > 0 && scans[k].text == scans[k - 1].text && scans[k - 1].doneAt != 0.0
      && scans[k].now - scans[k - 1].doneAt <= 30.0
    ensures k == 0 ==> !WindowShuffleAt(scans, k)
    ensures k > 0 && scans[k].text != scans[k - 1].text ==> !WindowShuffleAt(scans, k)
  {
    if k > 0 {
      assert scans[..k][..k - 1] == scans[..k - 1];
      assert scans[..k][k - 1] == scans[k - 1];
    }
  }

  /** The window runs from the end of the previous read, not the first one:
      a tag read again and again, each time within 30 s of the last, is
      shuffled on every read after the first, with no alternation. */
  lemma WindowQuickRepeatsShuffle(scans: seq<TimedRead>)
    requires forall k :: 0 <= k < |scans| ==> scans[k].text == scans[0].text
    requires forall i, j :: 0 <= i && j == i + 1 && j < |scans| ==>
      scans[i].doneAt != 0.0 && scans[j].now - scans[i].doneAt <= 30.0
    ensures forall k :: 0 < k < |scans| ==> WindowShuffleAt(scans, k)
  {
    forall k | 0 < k < |scans| ensures WindowShuffleAt(scans, k) {
      WindowShuffleAtSpec(scans, k);
      assert scans[k - 1].text == scans[0].text && scans[k].text == scans[0].text;
      assert scans[k - 1].doneAt != 0.0 && scans[k].now - scans[k - 1].doneAt <= 30.0;
    }
  }

  /** Three reads of one tag 25 s apart: the first plays in order, the
      second and the third shuffle, although the third comes 50 s after
      the first. */
  lemma WindowThreeReadsExample()
    ensures var scans := [TimedRead("a", 100.0, 100.0), TimedRead("a", 125.0, 125.0), TimedRead("a", 150.0, 150.0)];
      !WindowShuffleAt(scans, 0) && WindowShuffleAt(scans, 1) && WindowShuffleAt(scans, 2)
  {
    var scans := [TimedRead("a", 100.0, 100.0), TimedRead("a", 125.0, 125.0), TimedRead("a", 150.0, 150.0)];
    WindowShuffleAtSpec(scans, 0);
    WindowShuffleAtSpec(scans, 1);
    WindowShuffleAtSpec(scans, 2);
  }

  /** The session holds the last read's text and end time. */
  lemma WindowSessionIsLastRead(scans: seq<TimedRead>)
    ensures scans == [] ==> WindowSession(scans) == TimedInitial
    ensures scans != [] ==>
      WindowSession(scans) == TimedSession(Some(scans[|scans| - 1].text), Some(scans[|scans| - 1].doneAt))
  {
  }

  /** A read is one step from the session the earlier scans left. */
  lemma WindowSnoc(scans: seq<TimedRead>, r: TimedRead)
    ensures WindowSession(scans + [r]) == WindowStep(WindowSession(scans), r).next
    ensures WindowShuffleAt(scans + [r], |scans|) == WindowStep(WindowSession(scans), r).shuffle
  {
    assert (scans + [r])[..|scans|] == scans;
  }
}
