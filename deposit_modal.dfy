/** The transaction-id shortening of the deposit dialog (DepositModal.jsx, `formatTxid`). */
module DepositModal {
  import opened Types
  import Ecdsa

  /** `n.toString(16)`: lowercase digits, most significant first, no leading zeros. */
  function ToRadix16(n: nat): (r: string)
    ensures |r| >= 1
    ensures n < 16 ==> r == [Ecdsa.HexDigit(n)]
    ensures 16 <= n < 256 ==> r == [Ecdsa.HexDigit(n / 16), Ecdsa.HexDigit(n % 16)]
    decreases n
  {
    if n < 16 then [Ecdsa.HexDigit(n)] else ToRadix16(n / 16) + [Ecdsa.HexDigit(n % 16)]
  }

  /** `s.padStart(width, c)`: `c` repeated in front until the string is `width` long. */
  function PadStart(s: string, width: nat, c: char): (r: string)
    ensures |r| == Max(|s|, width)
    ensures r[|r| - |s|..] == s
    ensures forall i :: 0 <= i < |r| - |s| ==> r[i] == c
  {
    if |s| >= width then s else seq(width - |s|, _ => c) + s
  }

  /** The hex text of `formatTxid`: each byte as two lowercase, zero-padded hex digits, concatenated. */
  function TxidHex(txid: seq<Byte>): (hex: string)
    ensures |hex| == 2 * |txid|
  {
    if txid == [] then [] else PadStart(ToRadix16(txid[0]), 2, '0') + TxidHex(txid[1..])
  }

  /** `str.slice(-count)`: the last `count` characters, or all of them when there are fewer. */
  function SliceFromEnd(s: string, count: nat): (r: string)
    ensures |r| == Min(count, |s|) && r == s[|s| - |r|..]
  {
    s[Max(0, |s| - count)..]
  }

  /** The first eight hex digits, `...`, the last eight (which overlap when the id is short). */
  function FormatTxid(txid: seq<Byte>): (r: string)
    ensures |r| == 3 + 2 * Min(8, 2 * |txid|)
  {
    var hex := TxidHex(txid);
    hex[..Min(8, |hex|)] + "..." + SliceFromEnd(hex, 8)
  }

  /** Every byte turns into exactly the two digits the back end's `hex::encode` produces. */
  lemma {:induction false} TxidHexIsHexEncode(txid: seq<Byte>)
    ensures TxidHex(txid) == Ecdsa.HexEncode(txid)
    decreases |txid|
  {
    if txid != [] {
      var b := txid[0];
      if b >= 16 {
        assert ToRadix16(b) == [Ecdsa.HexDigit(b / 16), Ecdsa.HexDigit(b % 16)];
      }
      TxidHexIsHexEncode(txid[1..]);
    }
  }

  /** Hence the formatted id shows lowercase digits around the three dots. */
  lemma FormatTxidShape(txid: seq<Byte>)
    requires |txid| >= 4
    ensures var r := FormatTxid(txid);
      && |r| == 19
      && r[8..11] == "..."
      && r[..8] == Ecdsa.HexEncode(txid)[..8]
      && r[11..] == Ecdsa.HexEncode(txid)[2 * |txid| - 8..]
      && (forall i :: 0 <= i < 8 || 11 <= i < 19 ==> Ecdsa.IsLowerHex(r[i]))
  {
    TxidHexIsHexEncode(txid);
    LongHexShape(TxidHex(txid));
  }

  lemma LongHexShape(hex: string)
    requires |hex| >= 8
    ensures var r := hex[..Min(8, |hex|)] + "..." + SliceFromEnd(hex, 8);
      && |r| == 19
      && r[8..11] == "..."
      && r[..8] == hex[..8]
      && r[11..] == hex[|hex| - 8..]
      && (forall i :: 0 <= i < 8 ==> r[i] == hex[i])
      && (forall i :: 11 <= i < 19 ==> r[i] == hex[|hex| - 19 + i])
  {
  }

  /** A 32-byte transaction id is shown in 19 characters. */
  lemma FormatTxidLength32(txid: seq<Byte>)
    requires |txid| == 32
    ensures |FormatTxid(txid)| == 19
  {
    FormatTxidShape(txid);
  }

  /** An id of at most four bytes has at most eight digits, so it shows in full on both sides. */
  lemma FormatShortTxid(txid: seq<Byte>)
    requires |txid| <= 4
    ensures FormatTxid(txid) == TxidHex(txid) + "..." + TxidHex(txid)
  {
    ShortHexShowsAll(TxidHex(txid));
  }

  lemma ShortHexShowsAll(hex: string)
    requires |hex| <= 8
    ensures hex[..Min(8, |hex|)] + "..." + SliceFromEnd(hex, 8) == hex + "..." + hex
  {
    assert hex[..Min(8, |hex|)] == hex && SliceFromEnd(hex, 8) == hex;
  }
}
