/** The three tag writers: write.py (console, first card found), server.py
    (a web page that remembers the last scanned UID) and write-web.py (a web
    form that stops at the first failed page). The PN532 is outside the
    model: polls and write results are inputs, and each page write the
    program asks for is returned in order. Form text arrives as the bytes of
    its UTF-8 encoding. */
module TagWriter {
  import opened Optional
  import opened TagData

  /** One `ntag2xx_write_block(page, bytes)` call. */
  datatype PageWrite = PageWrite(page: int, bytes: seq<byte>)

  /** write.py:32-41 and server.py:60-69: the data in 4-byte pages, NUL-padded,
      written to consecutive pages from page 4. `raisesAt == Some(k)` makes
      the k-th `ntag2xx_write_block` call raise, if there is one: the loop
      ends there, after the calls made so far and the raising one. */
  method WriteFromPage4(data: seq<byte>, raisesAt: Option<nat>) returns (writes: seq<PageWrite>, raised: bool)
    ensures |Blocks(data)| == (|data| + 3) / 4
    ensures raised <==> raisesAt.Some? && raisesAt.value < |Blocks(data)|
    ensures |writes| == if raised then raisesAt.value + 1 else |Blocks(data)|
    ensures forall i :: 0 <= i < |writes| ==> writes[i] == PageWrite(4 + i, Blocks(data)[i])
  {
    writes := [];
    raised := false;
    var blockNumber := 4;
    var startIndex := 0;
    while startIndex < |data| && !raised
      invariant startIndex == 4 * |writes| && blockNumber == 4 + |writes|
      invariant |writes| <= |Blocks(data)|
      invariant startIndex < |data| ==> |writes| < |Blocks(data)|
      invariant raised <==> raisesAt.Some? && raisesAt.value < |writes|
      invariant raised ==> raisesAt.value + 1 == |writes|
      invariant forall i :: 0 <= i < |writes| ==> writes[i] == PageWrite(4 + i, Blocks(data)[i])
    {
      var blockData := BlockFrom(data, startIndex, |writes|);
      raised := raisesAt == Some(|writes|);
      writes := writes + [PageWrite(blockNumber, blockData)];
      blockNumber := blockNumber + 1;
      startIndex := startIndex + 4;
      PagesLeft(|data|, |writes|);
    }
    PagesLeft(|data|, |writes|);
  }

  /** The loop body's slice `data[start:start + 4]`, NUL-padded to four
      bytes: page `k` of the data. */
  method BlockFrom(data: seq<byte>, startIndex: nat, k: nat) returns (blockData: seq<byte>)
    requires startIndex == 4 * k && startIndex < |data|
    ensures k < |Blocks(data)| && blockData == Blocks(data)[k]
  {
    var endIndex := startIndex + 4;
    blockData := if endIndex <= |data| then data[startIndex..endIndex] else data[startIndex..];
    blockData := blockData + Zeros(4 - |blockData|);
    PagesLeft(|data|, k);
    BlocksAt(data, k);
  }

  /** Bytes remain after `w` pages iff fewer than ceil(len / 4) pages were written. */
  lemma PagesLeft(len: nat, w: nat)
    ensures 4 * w < len <==> w < (len + 3) / 4
  {
  }

  /** Whether the k-th page write of `data` raises, given `raisesAt`. */
  predicate WriteRaises(data: seq<byte>, raisesAt: Option<nat>)
  {
    raisesAt.Some? && raisesAt.value < |Blocks(data)|
  }

  /** The page writes made: all of them, or up to and including the one
      that raises. */
  function WritesMade(data: seq<byte>, raisesAt: Option<nat>): (r: seq<PageWrite>)
    ensures |r| <= |Page4Writes(data)|
    ensures WriteRaises(data, raisesAt) ==> |r| == raisesAt.value + 1
    ensures r == Page4Writes(data)[..|r|]
  {
    if WriteRaises(data, raisesAt) then Page4Writes(data)[..raisesAt.value + 1] else Page4Writes(data)
  }

  /** write.py:17-44: poll until a card answers, write the data to it, stop.
      `polls[k]` says whether the k-th poll found a card; `used` is the number
      of polls made. A raising page write ends the program (write.py:46-47)
      with the writes made so far. */
  method WriteFirstCard(polls: seq<bool>, data: seq<byte>, raisesAt: Option<nat>)
    returns (used: nat, writes: seq<PageWrite>, raised: bool)
    ensures used <= |polls|
    ensures forall k :: 0 <= k < used - 1 ==> !polls[k]
    ensures (exists k :: 0 <= k < |polls| && polls[k]) <==> used > 0 && polls[used - 1]
    ensures used > 0 && polls[used - 1] ==>
      raised == WriteRaises(data, raisesAt) && writes == WritesMade(data, raisesAt)
    ensures used > 0 && polls[used - 1] && !raised ==> writes == Page4Writes(data)
    ensures !(used > 0 && polls[used - 1]) ==> !raised && writes == [] && used == |polls|
  {
    used := 0;
    writes := [];
    raised := false;
    while used < |polls|
      invariant used <= |polls|
      invariant forall k :: 0 <= k < used ==> !polls[k]
    {
      used := used + 1;
      if polls[used - 1] {
        writes, raised := WriteFromPage4(data, raisesAt);
        assert writes == WritesMade(data, raisesAt);
        return;
      }
    }
  }

  /** The pages `WriteFromPage4` writes, as a value. */
  function Page4Writes(data: seq<byte>): (r: seq<PageWrite>)
    ensures |r| == |Blocks(data)|
    ensures forall i :: 0 <= i < |r| ==> r[i] == PageWrite(4 + i, Blocks(data)[i])
  {
    seq(|Blocks(data)|, i requires 0 <= i < |Blocks(data)| => PageWrite(4 + i, Blocks(data)[i]))
  }

  /** The pages a write covers, laid end to end, are the data NUL-padded to
      a multiple of four, and the page numbers run on from 4 without a gap. */
  lemma Page4WritesCover(data: seq<byte>)
    ensures Flatten(PageBytes(Page4Writes(data))) == data + Zeros(4 * |Page4Writes(data)| - |data|)
    ensures |Page4Writes(data)| > 0 ==> Page4Writes(data)[|Page4Writes(data)| - 1].page == 3 + |Page4Writes(data)|
    ensures data == [] <==> Page4Writes(data) == []
  {
    assert PageBytes(Page4Writes(data)) == Blocks(data);
    BlocksFlatten(data);
  }

  function PageBytes(writes: seq<PageWrite>): (r: seq<seq<byte>>)
    ensures |r| == |writes| && forall i :: 0 <= i < |r| ==> r[i] == writes[i].bytes
  {
    seq(|writes|, i requires 0 <= i < |writes| => writes[i].bytes)
  }

  /** What server.py renders. `ExceptionPage` is error.html showing
      "Error: " and the text of an exception caught by a handler; the
      exception's text is not modelled. */
  datatype Page =
    | IndexPage(lastScannedUid: Option<seq<byte>>)
    | SuccessPage(written: seq<byte>)
    | ErrorPage(message: string)
    | ExceptionPage

  const NoCardFound := "Error: No NFC card found. Please try again."
  const NoCardScanned := "Error: No NFC card scanned. Please scan an NFC card first."

  /** server.py: the `last_scanned_uid` global and its two POST handlers. */
  class WriterServer {
    var lastScannedUid: Option<seq<byte>>

    /** server.py:17. */
    constructor ()
      ensures lastScannedUid == None
    {
      lastScannedUid := None;
    }

    /** server.py:23-40: a card found becomes the last scanned UID; no card
        leaves it as it was and renders an error. */
    method Scan(uid: Option<seq<byte>>) returns (page: Page)
      modifies this
      ensures uid.Some? ==> lastScannedUid == uid && page == IndexPage(uid)
      ensures uid.None? ==> lastScannedUid == old(lastScannedUid) && page == ErrorPage(NoCardFound)
    {
      if uid.Some? {
        lastScannedUid := uid;
        page := IndexPage(lastScannedUid);
      } else {
        page := ErrorPage(NoCardFound);
      }
    }

    /** server.py:47-83: writes the form data from page 4 when a card has
        been scanned and refuses, writing nothing, when none has. `form` is
        the `data_to_write` field, `None` when the form lacks it; the lookup
        then raises. `raisesAt` says which page write raises, if any. Any
        exception renders the exception page after the writes made so far.
        It never changes `last_scanned_uid`. */
    method Write(form: Option<seq<byte>>, raisesAt: Option<nat>) returns (page: Page, writes: seq<PageWrite>)
      ensures lastScannedUid.None? ==> writes == [] && page == ErrorPage(NoCardScanned)
      ensures lastScannedUid.Some? && form.None? ==> writes == [] && page == ExceptionPage
      ensures lastScannedUid.Some? && form.Some? ==>
        writes == WritesMade(form.value, raisesAt)
        && page == (if WriteRaises(form.value, raisesAt) then ExceptionPage else SuccessPage(form.value))
      ensures lastScannedUid.Some? && form.Some? && !WriteRaises(form.value, raisesAt) ==>
        writes == Page4Writes(form.value)
    {
      writes := [];
      if lastScannedUid.Some? {
        if form.None? {
          page := ExceptionPage;
          return;
        }
        var raised;
        writes, raised := WriteFromPage4(form.value, raisesAt);
        assert writes == WritesMade(form.value, raisesAt);
        page := if raised then ExceptionPage else SuccessPage(form.value);
      } else {
        page := ErrorPage(NoCardScanned);
      }
    }
  }

  /** What `write_to_tag` in write-web.py returns; `NoResponse` is the
      implicit `None` for empty form data. */
  datatype Response = NoResponse | Written(data: seq<byte>, uidHex: string) | WriteFailed | NoTag

  /** The index of the first `false` among the first `n` results, or `n`. */
  function FirstFailure(results: seq<bool>, n: nat): (k: nat)
    requires n <= |results|
    ensures k <= n && forall j :: 0 <= j < k ==> results[j]
    ensures k < n ==> !results[k]
  {
    if n == 0 then 0
    else if FirstFailure(results, n - 1) < n - 1 then FirstFailure(results, n - 1)
    else if results[n - 1] then n else n - 1
  }

  /** write-web.py:17-45. `uid` is what the poll returned (`if uid:` is
      false for None and for an empty UID); `results[i]` is what the i-th
      page write returns. Pages are numbered from 0, the loop stops after the
      first failed page, and success is reported iff no write failed. */
  method WriteToTag(data: seq<byte>, uid: Option<seq<byte>>, results: seq<bool>) returns (response: Response, attempted: seq<PageWrite>)
    requires |results| >= |Blocks(data)|
    ensures data == [] ==> response == NoResponse && attempted == []
    ensures data != [] && (uid.None? || uid.value == []) ==> response == NoTag && attempted == []
    ensures data != [] && uid.Some? && uid.value != [] ==>
      var n := |Blocks(data)|;
      var k := FirstFailure(results, n);
      |attempted| == (if k < n then k + 1 else n)
      && (forall i :: 0 <= i < |attempted| ==> attempted[i] == PageWrite(i, Blocks(data)[i]))
      && response == (if k == n then Written(data, UidHex(uid.value)) else WriteFailed)
  {
    attempted := [];
    if data == [] {
      response := NoResponse;
      return;
    }
    if uid.None? || uid.value == [] {
      response := NoTag;
      return;
    }
    var dataBlocks := Blocks(data);
    var success := true;
    var blockNumber := 0;
    while blockNumber < |dataBlocks|
      invariant blockNumber <= |dataBlocks| && |attempted| == blockNumber
      invariant forall i :: 0 <= i < blockNumber ==> attempted[i] == PageWrite(i, dataBlocks[i])
      invariant forall j :: 0 <= j < blockNumber ==> results[j]
      invariant success
    {
      attempted := attempted + [PageWrite(blockNumber, dataBlocks[blockNumber])];
      success := results[blockNumber];
      if !success {
        assert FirstFailure(results, |dataBlocks|) == blockNumber by {
          FirstFailureAt(results, |dataBlocks|, blockNumber);
        }
        break;
      }
      blockNumber := blockNumber + 1;
    }
    if success {
      FirstFailureNone(results, |dataBlocks|);
      response := Written(data, UidHex(uid.value));
    } else {
      response := WriteFailed;
    }
  }

  lemma {:induction false} FirstFailureAt(results: seq<bool>, n: nat, k: nat)
    requires k < n <= |results|
    requires (forall j :: 0 <= j < k ==> results[j]) && !results[k]
    ensures FirstFailure(results, n) == k
  {
    if n > k + 1 {
      FirstFailureAt(results, n - 1, k);
    }
  }

  lemma {:induction false} FirstFailureNone(results: seq<bool>, n: nat)
    requires n <= |results|
    requires forall j :: 0 <= j < n ==> results[j]
    ensures FirstFailure(results, n) == n
  {
    if n > 0 {
      FirstFailureNone(results, n - 1);
    }
  }
}
