/** What goes onto a tag and what comes back off it: the 4-byte NTAG pages
    the writers pack the data into, the cleanup `scan_tag` applies to the
    page it reads, and the two ways the players turn a UID into a mapping
    key. Text is encoded and decoded as ASCII here (see README). */
module TagData {
  import opened Optional
  import opened Text

  type byte = x: int | 0 <= x < 256

  /** An NTAG page holds four bytes. */
  const PageSize := 4

  function Zeros(n: nat): (r: seq<byte>)
    ensures |r| == n && forall i :: 0 <= i < n ==> r[i] == 0
  {
    if n == 0 then [] else Zeros(n - 1) + [0]
  }

  /** `[data[i:i+4].ljust(4, b'\x00') for i in range(0, len(data), 4)]`,
      which is also what the `block_data += b'\0' * (4 - len(block_data))`
      loops produce: consecutive 4-byte slices, the last NUL-padded. */
  function Blocks(data: seq<byte>): (r: seq<seq<byte>>)
    ensures |r| == (|data| + 3) / 4
    ensures forall i :: 0 <= i < |r| ==> |r[i]| == PageSize
    decreases |data|
  {
    if data == [] then []
    else if |data| <= 4 then [data + Zeros(4 - |data|)]
    else [data[..4]] + Blocks(data[4..])
  }

  function Flatten(blocks: seq<seq<byte>>): seq<byte>
  {
    if blocks == [] then [] else blocks[0] + Flatten(blocks[1..])
  }

  /** The pages, laid end to end, are the data followed by the 0 to 3 NUL
      bytes that make its length a multiple of four. */
  lemma {:induction false} BlocksFlatten(data: seq<byte>)
    ensures Flatten(Blocks(data)) == data + Zeros(4 * |Blocks(data)| - |data|)
    ensures 0 <= 4 * |Blocks(data)| - |data| <= 3
    decreases |data|
  {
    if |data| > 4 {
      BlocksFlatten(data[4..]);
      var rest := Blocks(data[4..]);
      assert Blocks(data)[1..] == rest;
      assert data == data[..4] + data[4..];
    } else if data != [] {
      assert Blocks(data)[1..] == [];
    }
  }

  /** So the data is recovered from the pages by dropping the padding. */
  lemma BlocksRecoverData(data: seq<byte>)
    ensures |Flatten(Blocks(data))| == 4 * |Blocks(data)|
    ensures Flatten(Blocks(data))[..|data|] == data
  {
    BlocksFlatten(data);
  }

  /** Packing splits at page boundaries: data whose first part fills whole
      pages packs as the two parts packed one after the other. */
  lemma {:induction false} BlocksConcat(a: seq<byte>, b: seq<byte>)
    requires |a| % 4 == 0
    ensures Blocks(a + b) == Blocks(a) + Blocks(b)
    decreases |a|
  {
    if a == [] {
      assert a + b == b;
    } else {
      assert (a + b)[..4] == a[..4];
      assert (a + b)[4..] == a[4..] + b;
      BlocksConcat(a[4..], b);
      if |a| == 4 {
        assert a + Zeros(0) == a[..4];
      }
    }
  }

  /** Page `i` holds bytes `4i` to `4i + 3` of the data, NUL-padded past its end. */
  lemma {:induction false} BlocksAt(data: seq<byte>, i: nat)
    requires i < |Blocks(data)|
    ensures 4 * i < |data|
    ensures Blocks(data)[i] ==
      if 4 * i + 4 <= |data| then data[4 * i..4 * i + 4]
      else data[4 * i..] + Zeros(4 * i + 4 - |data|)
    decreases |data|
  {
    if |data| > 4 && i > 0 {
      BlocksAt(data[4..], i - 1);
      assert data[4..][4 * (i - 1)..] == data[4 * i..];
      if 4 * i + 4 <= |data| {
        assert data[4..][4 * (i - 1)..4 * (i - 1) + 4] == data[4 * i..4 * i + 4];
      }
    } else if |data| <= 4 {
      assert data[0..] == data;
    }
  }

  /** ASCII text as bytes, and back: `str.encode`/`bytes.decode` on the
      ASCII range. A byte of 0x80 or more makes the decode fail. */
  function AsciiBytes(s: string): (r: seq<byte>)
    requires forall i :: 0 <= i < |s| ==> s[i] < '\U{80}'
    ensures |r| == |s|
  {
    if s == [] then [] else [s[0] as int] + AsciiBytes(s[1..])
  }

  function DecodeAscii(b: seq<byte>): (r: Option<string>)
    ensures r.Some? ==> |r.value| == |b|
  {
    if b == [] then Some([])
    else if b[0] >= 0x80 then None
    else match DecodeAscii(b[1..]) {
      case None => None
      case Some(t) => Some([b[0] as char] + t)
    }
  }

  lemma {:induction false} DecodeAsciiBytes(s: string)
    requires forall i :: 0 <= i < |s| ==> s[i] < '\U{80}'
    ensures DecodeAscii(AsciiBytes(s)) == Some(s)
  {
    if s != [] {
      var b := AsciiBytes(s);
      DecodeAsciiBytes(s[1..]);
      assert b[1..] == AsciiBytes(s[1..]);
      assert b[0] == s[0] as int < 0x80;
      assert b[0] as char == s[0];
      assert s == [s[0]] + s[1..];
    }
  }

  lemma {:induction false} DecodeAsciiConcat(a: seq<byte>, b: seq<byte>)
    ensures DecodeAscii(a + b) ==
      if DecodeAscii(a).Some? && DecodeAscii(b).Some? then Some(DecodeAscii(a).value + DecodeAscii(b).value) else None
  {
    if a == [] {
      assert a + b == b;
      if DecodeAscii(b).Some? {
        assert DecodeAscii(a).value + DecodeAscii(b).value == DecodeAscii(b).value;
      }
    } else {
      assert (a + b)[0] == a[0];
      assert (a + b)[1..] == a[1..] + b;
      DecodeAsciiConcat(a[1..], b);
      if a[0] < 0x80 && DecodeAscii(a[1..]).Some? && DecodeAscii(b).Some? {
        assert DecodeAscii(a).value == [a[0] as char] + DecodeAscii(a[1..]).value;
        assert DecodeAscii(a + b).value == [a[0] as char] + (DecodeAscii(a[1..]).value + DecodeAscii(b).value);
        assert [a[0] as char] + (DecodeAscii(a[1..]).value + DecodeAscii(b).value)
          == ([a[0] as char] + DecodeAscii(a[1..]).value) + DecodeAscii(b).value;
      }
    }
  }

  /** `data_read.decode('utf-8').strip()`, then `.replace('\x00', '').strip()`. */
  function CleanTagText(t: string): string
  {
    Strip(RemoveNul(Strip(t)))
  }

  /** `scan_tag`: no tag, a read that raises, or a decode that fails all
      give None; otherwise the cleaned text of the page read. */
  function ScanTag(uidFound: bool, page: Option<seq<byte>>): Option<string>
  {
    if !uidFound || page.None? then None
    else match DecodeAscii(page.value) {
      case None => None
      case Some(t) => Some(CleanTagText(t))
    }
  }

  lemma StripKeepsNoNul(s: string)
    requires '\0' !in s
    ensures '\0' !in Strip(s)
  {
    StripResult(s);
    var i, j :| 0 <= i <= j <= |s| && Strip(s) == s[i..j];
  }

  /** The text a scan returns has no NUL and no whitespace at either end,
      and is None exactly when there was no tag or the page did not decode. */
  lemma ScanTagSpec(uidFound: bool, page: Option<seq<byte>>)
    ensures ScanTag(uidFound, page).None? <==> !uidFound || page.None? || DecodeAscii(page.value).None?
    ensures ScanTag(uidFound, page).Some? ==>
      '\0' !in ScanTag(uidFound, page).value && Trimmed(ScanTag(uidFound, page).value)
  {
    if ScanTag(uidFound, page).Some? {
      var t := DecodeAscii(page.value).value;
      StripKeepsNoNul(RemoveNul(Strip(t)));
      StripResult(RemoveNul(Strip(t)));
    }
  }

  /** Text that is already clean passes through unchanged, so cleaning twice
      is cleaning once. */
  lemma CleanTagTextIdempotent(t: string)
    ensures '\0' !in t && Trimmed(t) ==> CleanTagText(t) == t
    ensures CleanTagText(CleanTagText(t)) == CleanTagText(t)
  {
    if '\0' !in t && Trimmed(t) {
      StripTrimmed(t);
      RemoveNulNoNul(t);
    }
    var c := CleanTagText(t);
    StripKeepsNoNul(RemoveNul(Strip(t)));
    StripResult(RemoveNul(Strip(t)));
    StripTrimmed(c);
    RemoveNulNoNul(c);
  }

  /** A page of `k` NUL bytes decodes to `k` NUL characters. */
  function Nuls(k: nat): (r: string)
    ensures |r| == k && forall i :: 0 <= i < k ==> r[i] == '\0'
  {
    if k == 0 then [] else Nuls(k - 1) + ['\0']
  }

  lemma {:induction false} NulPageDecodes(k: nat)
    ensures DecodeAscii(Zeros(k)) == Some(Nuls(k))
  {
    if k > 0 {
      NulPageDecodes(k - 1);
      var z: seq<byte> := [0];
      assert z[1..] == [];
      assert DecodeAscii(z[1..]) == Some([]);
      assert [z[0] as char] + [] == ['\0'];
      assert DecodeAscii(z) == Some(['\0']);
      DecodeAsciiConcat(Zeros(k - 1), z);
    }
  }

  lemma {:induction false} RemoveNulNuls(k: nat)
    ensures RemoveNul(Nuls(k)) == []
  {
    if k > 0 {
      RemoveNulNuls(k - 1);
      RemoveNulConcat(Nuls(k - 1), ['\0']);
      assert ['\0'][1..] == [];
    }
  }

  /** Clean text followed by NUL padding cleans back to the text. */
  lemma CleanPadded(s: string, k: nat)
    requires s != [] && Trimmed(s) && '\0' !in s
    ensures CleanTagText(s + Nuls(k)) == s
  {
    var t := s + Nuls(k);
    assert t[0] == s[0];
    assert StripLeft(t) == t;
    if k > 0 {
      assert t[|t| - 1] == '\0';
    } else {
      assert t == s;
    }
    assert Strip(t) == t;
    RemoveNulConcat(s, Nuls(k));
    RemoveNulNoNul(s);
    RemoveNulNuls(k);
    assert RemoveNul(t) == s;
    StripTrimmed(s);
  }

  /** Reading back the first page of what the writers wrote gives the
      written text when it is at most one page of clean ASCII. */
  lemma ShortTextReadsBack(s: string)
    requires 0 < |s| <= 4 && Trimmed(s) && '\0' !in s
    requires forall i :: 0 <= i < |s| ==> s[i] < '\U{80}'
    ensures ScanTag(true, Some(Blocks(AsciiBytes(s))[0])) == Some(s)
  {
    var data := AsciiBytes(s);
    var k := 4 - |data|;
    assert Blocks(data)[0] == data + Zeros(k);
    DecodeAsciiConcat(data, Zeros(k));
    DecodeAsciiBytes(s);
    NulPageDecodes(k);
    CleanPadded(s, k);
  }

  /** Longer text comes back cut to its first four characters: `scan_tag`
      reads page 4 only. */
  lemma LongTextReadsFirstPage(s: string)
    requires |s| >= 4
    requires forall i :: 0 <= i < |s| ==> s[i] < '\U{80}'
    ensures ScanTag(true, Some(Blocks(AsciiBytes(s))[0])) == Some(CleanTagText(s[..4]))
  {
    var data := AsciiBytes(s);
    AsciiBytesPrefix(s, 4);
    if |data| > 4 {
      assert Blocks(data)[0] == data[..4];
    } else {
      assert Blocks(data)[0] == data + Zeros(0) == data[..4];
    }
    DecodeAsciiBytes(s[..4]);
  }

  lemma {:induction false} AsciiBytesPrefix(s: string, k: nat)
    requires k <= |s|
    requires forall i :: 0 <= i < |s| ==> s[i] < '\U{80}'
    ensures AsciiBytes(s)[..k] == AsciiBytes(s[..k])
  {
    if k > 0 {
      AsciiBytesPrefix(s[1..], k - 1);
      assert s[..k][1..] == s[1..][..k - 1];
    }
  }

  function HexDigit(n: int): (c: char)
    requires 0 <= n < 16
  {
    if n < 10 then ('0' as int + n) as char else ('a' as int + n - 10) as char
  }

  function HexValue(c: char): Option<int>
  {
    if '0' <= c <= '9' then Some(c as int - '0' as int)
    else if 'a' <= c <= 'f' then Some(c as int - 'a' as int + 10)
    else None
  }

  lemma HexDigitValue(n: int)
    requires 0 <= n < 16
    ensures HexValue(HexDigit(n)) == Some(n)
  {
  }

  /** `uid.hex()` (test-pn532.py, write-web.py): two lower-case digits per byte. */
  function UidHex(uid: seq<byte>): (r: string)
    ensures |r| == 2 * |uid|
  {
    if uid == [] then [] else [HexDigit(uid[0] / 16), HexDigit(uid[0] % 16)] + UidHex(uid[1..])
  }

  /** `bytes.fromhex` on lower-case text of even length. */
  function ParseHex(s: string): Option<seq<byte>>
    decreases |s|
  {
    if s == [] then Some([])
    else if |s| == 1 then None
    else match (HexValue(s[0]), HexValue(s[1]), ParseHex(s[2..])) {
      case (Some(hi), Some(lo), Some(rest)) => Some([16 * hi + lo] + rest)
      case _ => None
    }
  }

  lemma {:induction false} UidHexRoundTrip(uid: seq<byte>)
    ensures ParseHex(UidHex(uid)) == Some(uid)
  {
    if uid != [] {
      var s := UidHex(uid);
      HexDigitValue(uid[0] / 16);
      HexDigitValue(uid[0] % 16);
      assert s[2..] == UidHex(uid[1..]);
      UidHexRoundTrip(uid[1..]);
      assert uid == [uid[0]] + uid[1..];
    }
  }

  /** Distinct UIDs get distinct `uid.hex()` keys. */
  lemma UidHexInjective(a: seq<byte>, b: seq<byte>)
    requires UidHex(a) == UidHex(b)
    ensures a == b
  {
    UidHexRoundTrip(a);
    UidHexRoundTrip(b);
  }

  /** `format(byte, 'x')`: no leading zero. */
  function ByteHex(b: byte): (r: string)
  {
    if b < 16 then [HexDigit(b)] else [HexDigit(b / 16), HexDigit(b % 16)]
  }

  /** final-broken-modified.py:85: `''.join([format(byte, 'x') for byte in uid])`. */
  function UnpaddedHex(uid: seq<byte>): string
  {
    if uid == [] then [] else ByteHex(uid[0]) + UnpaddedHex(uid[1..])
  }

  /** The number of bytes of `uid` that are 16 or more. */
  function WideBytes(uid: seq<byte>): (n: nat)
    ensures n <= |uid|
  {
    if uid == [] then 0 else (if uid[0] >= 16 then 1 else 0) + WideBytes(uid[1..])
  }

  /** Each byte below 16 gives one digit and every other byte two, so the
      key is between n and 2n characters long; it is `uid.hex()` exactly
      when every byte is 16 or more. */
  lemma {:induction false} UnpaddedHexLength(uid: seq<byte>)
    ensures |UnpaddedHex(uid)| == |uid| + WideBytes(uid)
    ensures |uid| <= |UnpaddedHex(uid)| <= 2 * |uid|
    ensures (UnpaddedHex(uid) == UidHex(uid)) <==> WideBytes(uid) == |uid|
  {
    if uid != [] {
      UnpaddedHexLength(uid[1..]);
      if WideBytes(uid) == |uid| {
        assert uid[0] >= 16;
      }
    }
  }

  /** The unpadded key is lossy: two different UIDs share the key "123". */
  lemma UnpaddedHexCollision()
    ensures UnpaddedHex([0x01, 0x23]) == UnpaddedHex([0x12, 0x03]) == "123"
  {
    var a: seq<byte>, b: seq<byte> := [0x01, 0x23], [0x12, 0x03];
    assert a[1..] == [0x23] && b[1..] == [0x03];
    var c: seq<byte>, d: seq<byte> := [0x23], [0x03];
    assert c[1..] == [] && d[1..] == [];
    assert UnpaddedHex(c) == "23";
    assert UnpaddedHex(d) == "3";
  }
}
