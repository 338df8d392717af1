/**
  The IPv4 header checksum of homework19_link_layer: signed 16-bit words summed in an int, folded
  once and complemented, against the one's complement checksum of RFC 1071 that RFC 791 asks for.
 */
module Checksum {

  type Word = w: int | 0 <= w < 0x1_0000

  // ----- RFC 1071 -----

  /** Addition with end-around carry. */
  function AddCarry(a: Word, b: Word): Word {
    if a + b >= 0x1_0000 then a + b - 0xFFFF else a + b
  }

  /** The one's complement sum (RFC 1071, section 1). */
  function OnesSum(ws: seq<Word>): Word {
    if ws == [] then 0 else AddCarry(OnesSum(ws[..|ws| - 1]), ws[|ws| - 1])
  }

  function RfcChecksum(ws: seq<Word>): Word { 0xFFFF - OnesSum(ws) }

  // ----- The program -----

  /** The value of a word read through a pointer to short. */
  function Signed(w: Word): int { if w >= 0x8000 then w - 0x1_0000 else w }

  function SignedSum(ws: seq<Word>): int {
    if ws == [] then 0 else SignedSum(ws[..|ws| - 1]) + Signed(ws[|ws| - 1])
  }

  /** `(t & 0xFFFF) + (short)(t >> 16)`, stored in a 16-bit field. */
  function SingleFold(t: int): Word {
    (t % 0x1_0000 + Signed((t / 0x1_0000) % 0x1_0000)) % 0x1_0000
  }

  function ProgramChecksum(ws: seq<Word>): Word { 0xFFFF - SingleFold(SignedSum(ws)) }

  // ----- Plain sums -----

  function Total(ws: seq<Word>): nat {
    if ws == [] then 0 else Total(ws[..|ws| - 1]) + ws[|ws| - 1]
  }

  /** How many words have their top bit set. */
  function HighWords(ws: seq<Word>): (k: nat)
    ensures k <= |ws|
  {
    if ws == [] then 0 else HighWords(ws[..|ws| - 1]) + if ws[|ws| - 1] >= 0x8000 then 1 else 0
  }

  /** The low and the high half of the sum add up without a carry. */
  predicate FoldFits(ws: seq<Word>) {
    Total(ws) % 0x1_0000 + Total(ws) / 0x1_0000 < 0x1_0000
  }

  lemma {:induction false} SumsAgree(ws: seq<Word>)
    ensures SignedSum(ws) == Total(ws) - 0x1_0000 * HighWords(ws)
    ensures Total(ws) <= 0xFFFF * |ws|
    ensures -0x8000 * |ws| <= SignedSum(ws) <= 0x7FFF * |ws|
  {
    if ws != [] { SumsAgree(ws[..|ws| - 1]); }
  }

  /** The representative of u modulo 0xFFFF that one's complement addition reaches: 0 only for 0. */
  function Reduced(u: nat): Word {
    if u == 0 then 0 else (u - 1) % 0xFFFF + 1
  }

  lemma {:induction false} OnesSumIsReduced(ws: seq<Word>)
    ensures OnesSum(ws) == Reduced(Total(ws))
  {
    if ws != [] { OnesSumIsReduced(ws[..|ws| - 1]); }
  }

  /** Two numbers with the same residue, both zero or both positive, reduce to the same word. */
  lemma ReducedUnique(u: nat, w: Word, q: int)
    requires u == w + 0xFFFF * q && (u == 0 <==> w == 0)
    ensures Reduced(u) == w
  {
  }

  lemma FoldReduces(ws: seq<Word>)
    requires |ws| <= 0x1_0000
    ensures var l, h := Total(ws) % 0x1_0000, Total(ws) / 0x1_0000;
            OnesSum(ws) == if FoldFits(ws) then l + h else l + h - 0xFFFF
  {
    OnesSumIsReduced(ws);
    SumsAgree(ws);
    var u := Total(ws);
    var l, h := u % 0x1_0000, u / 0x1_0000;
    if l + h < 0x1_0000 {
      ReducedUnique(u, l + h, h);
    } else {
      ReducedUnique(u, l + h - 0xFFFF, h + 1);
    }
  }

  lemma FoldOfSigned(u: nat, k: nat)
    ensures SingleFold(u - 0x1_0000 * k) == (u % 0x1_0000 + u / 0x1_0000 - k) % 0x1_0000
  {
    var t := u - 0x1_0000 * k;
    assert t / 0x1_0000 == u / 0x1_0000 - k && t % 0x1_0000 == u % 0x1_0000;
  }

  /** The single fold p of a sum with halves l and h and k high words, against the full fold r. */
  lemma CompareFolds(p: int, r: int, l: nat, h: nat, k: nat)
    requires l < 0x1_0000 && h < 0x1_0000 && k <= 0x1_0000
    requires p == (l + h - k) % 0x1_0000 && r == if l + h < 0x1_0000 then l + h else l + h - 0xFFFF
    ensures p == r <==> || ((k == 0 || k == 0x1_0000) && l + h < 0x1_0000)
                        || (k == 0xFFFF && l + h >= 0x1_0000)
    ensures r == 0xFFFF && p == 0 ==> k >= 0xFFFF || (h == 0xFFFF && l == 0xFFFF)
  {
    var x := l + h - k;
    if x == -0x1_0000 {
    } else if x < 0 {
      assert x % 0x1_0000 == x + 0x1_0000;
    } else if x < 0x1_0000 {
      assert x % 0x1_0000 == x;
    } else {
      assert x % 0x1_0000 == x - 0x1_0000;
    }
  }

  // ----- When the program is right -----

  /** Exactly when the program's checksum is the RFC's, for every word sequence whose signed sum fits
      an int. The second case needs at least 65535 words with their top bit set. */
  lemma ChecksumCorrectExactly(ws: seq<Word>)
    requires |ws| <= 0x1_0000
    ensures -0x8000_0000 <= SignedSum(ws) < 0x8000_0000
    ensures ProgramChecksum(ws) == RfcChecksum(ws) <==>
            || ((HighWords(ws) == 0 || HighWords(ws) == 0x1_0000) && FoldFits(ws))
            || (HighWords(ws) == 0xFFFF && !FoldFits(ws))
  {
    FoldReduces(ws);
    ProgramFold(ws);
    CompareFolds(SingleFold(SignedSum(ws)), OnesSum(ws), Total(ws) % 0x1_0000, Total(ws) / 0x1_0000, HighWords(ws));
  }

  lemma ProgramFold(ws: seq<Word>)
    requires |ws| <= 0x1_0000
    ensures -0x8000_0000 <= SignedSum(ws) < 0x8000_0000 && Total(ws) / 0x1_0000 < 0x1_0000
    ensures SingleFold(SignedSum(ws)) == (Total(ws) % 0x1_0000 + Total(ws) / 0x1_0000 - HighWords(ws)) % 0x1_0000
  {
    SumsAgree(ws);
    FoldOfSigned(Total(ws), HighWords(ws));
  }

  /** For every IP header (at most 30 words) and up to 65534 words. */
  lemma HeaderChecksumCorrectExactly(ws: seq<Word>)
    requires |ws| < 0xFFFF
    ensures ProgramChecksum(ws) == RfcChecksum(ws) <==> HighWords(ws) == 0 && FoldFits(ws)
  {
    ChecksumCorrectExactly(ws);
  }

  lemma {:induction false} NoHighWords(ws: seq<Word>)
    ensures HighWords(ws) == 0 <==> forall i :: 0 <= i < |ws| ==> ws[i] < 0x8000
  {
    if ws != [] {
      NoHighWords(ws[..|ws| - 1]);
      assert forall i :: 0 <= i < |ws| - 1 ==> ws[..|ws| - 1][i] == ws[i];
    }
  }

  lemma {:induction false} TotalUpdate(ws: seq<Word>, i: nat, w: Word)
    requires i < |ws|
    ensures Total(ws[i := w]) == Total(ws) - ws[i] + w
  {
    var n := |ws| - 1;
    if i == n {
      assert ws[i := w][..n] == ws[..n];
    } else {
      assert ws[i := w][..n] == ws[..n][i := w];
      TotalUpdate(ws[..n], i, w);
    }
  }

  /** The receiver's test (RFC 1071, section 1): a header whose zero field was replaced by c sums to
      all ones exactly for the RFC checksum, up to the second zero of one's complement. */
  lemma ReceiverAccepts(ws: seq<Word>, i: nat, c: Word)
    requires i < |ws| && ws[i] == 0
    ensures OnesSum(ws[i := c]) == 0xFFFF <==> c == RfcChecksum(ws) || (c == 0xFFFF && OnesSum(ws) == 0xFFFF)
  {
    OnesSumIsReduced(ws);
    OnesSumIsReduced(ws[i := c]);
    TotalUpdate(ws, i, c);
    ReducedPlus(Total(ws), c);
  }

  lemma ReducedPlus(u: nat, c: Word)
    ensures Reduced(u + c) == AddCarry(Reduced(u), c)
  {
  }

  /** A header finished by the program passes the receiver's test exactly when no word has its top bit
      set and the single fold leaves no carry. */
  lemma FinishedHeaderVerifies(ws: seq<Word>, i: nat)
    requires |ws| < 0xFFFF && i < |ws| && ws[i] == 0
    ensures OnesSum(ws[i := ProgramChecksum(ws)]) == 0xFFFF <==> HighWords(ws) == 0 && FoldFits(ws)
  {
    HeaderChecksumCorrectExactly(ws);
    ReceiverAccepts(ws, i, ProgramChecksum(ws));
    NoSecondZero(ws);
  }

  lemma NoSecondZero(ws: seq<Word>)
    requires |ws| < 0xFFFF
    ensures !(ProgramChecksum(ws) == 0xFFFF && OnesSum(ws) == 0xFFFF)
  {
    FoldReduces(ws);
    ProgramFold(ws);
    CompareFolds(SingleFold(SignedSum(ws)), OnesSum(ws), Total(ws) % 0x1_0000, Total(ws) / 0x1_0000, HighWords(ws));
    TotalIsSmall(ws);
  }

  lemma TotalIsSmall(ws: seq<Word>)
    requires |ws| < 0xFFFF
    ensures Total(ws) / 0x1_0000 < 0xFFFF
  {
    SumsAgree(ws);
  }

  // ----- Byte order -----

  function Swap(w: Word): Word { (w % 0x100) * 0x100 + w / 0x100 }

  function Swapped(ws: seq<Word>): (r: seq<Word>)
    ensures |r| == |ws| && forall i :: 0 <= i < |ws| ==> r[i] == Swap(ws[i])
  {
    seq(|ws|, i requires 0 <= i < |ws| => Swap(ws[i]))
  }

  lemma {:induction false} SwappedTotal(ws: seq<Word>) returns (q: int)
    ensures Total(Swapped(ws)) == 0x100 * Total(ws) - 0xFFFF * q
    ensures Total(Swapped(ws)) == 0 <==> Total(ws) == 0
  {
    if ws == [] {
      q := 0;
    } else {
      var n := |ws| - 1;
      q := SwappedTotal(ws[..n]);
      assert Swapped(ws)[..n] == Swapped(ws[..n]);
      q := q + ws[n] / 0x100;
    }
  }

  /** RFC 1071, section 2 (B): the sum of byte-swapped words is the byte-swapped sum, so the words may
      be summed in host order. */
  lemma SumIsByteOrderIndependent(ws: seq<Word>)
    ensures OnesSum(Swapped(ws)) == Swap(OnesSum(ws))
  {
    var q := SwappedTotal(ws);
    OnesSumIsReduced(ws);
    OnesSumIsReduced(Swapped(ws));
    var r := OnesSum(ws);
    var d := ReducedQuotient(Total(ws));
    SwapResidue(r);
    ReducedUnique(Total(Swapped(ws)), Swap(r), 0x100 * d - q + r / 0x100);
  }

  lemma ReducedQuotient(u: nat) returns (d: int)
    ensures u == Reduced(u) + 0xFFFF * d && (u == 0 <==> Reduced(u) == 0)
  {
    d := if u == 0 then 0 else (u - 1) / 0xFFFF;
  }

  lemma SwapResidue(w: Word)
    ensures Swap(w) == 0x100 * w - 0xFFFF * (w / 0x100) && (Swap(w) == 0 <==> w == 0)
  {
  }

  // ----- The loop -----

  /** Clears the checksum field, sums the words and stores the folded complement. */
  method FillChecksum(hdr: array<Word>, check: nat)
    requires check < hdr.Length <= 0x1_0000
    modifies hdr
    ensures var cleared := old(hdr[..])[check := 0];
            hdr[..] == cleared[check := ProgramChecksum(cleared)]
  {
    hdr[check] := 0;
    ghost var cleared := hdr[..];
    var tempCsum := 0;
    for i := 0 to hdr.Length
      invariant hdr[..] == cleared
      invariant tempCsum == SignedSum(cleared[..i])
    {
      assert cleared[..i + 1][..i] == cleared[..i];
      SumsAgree(cleared[..i + 1]);
      assert -0x8000_0000 <= tempCsum + Signed(hdr[i]) < 0x8000_0000;  // no int overflow
      tempCsum := tempCsum + Signed(hdr[i]);
    }
    assert cleared[..|cleared|] == cleared;
    hdr[check] := (tempCsum % 0x1_0000 + Signed((tempCsum / 0x1_0000) % 0x1_0000)) % 0x1_0000;
    hdr[check] := 0xFFFF - hdr[check];
  }

  // ----- Two headers -----

  /** The header this client sends, as a little-endian host reads it: 10.0.2.15 to itself. */
  const OWN_HEADER: seq<Word> := [0x0045, 0x2600, 0x007F, 0x0040, 0x1140, 0, 0x000A, 0x0F02, 0x000A, 0x0F02]

  /** It gets the right checksum. */
  lemma OwnHeaderIsCorrect()
    ensures ProgramChecksum(OWN_HEADER) == RfcChecksum(OWN_HEADER)
    ensures OnesSum(OWN_HEADER[5 := ProgramChecksum(OWN_HEADER)]) == 0xFFFF
  {
    NoHighWords(OWN_HEADER);
    OwnTotal();
    HeaderChecksumCorrectExactly(OWN_HEADER);
    FinishedHeaderVerifies(OWN_HEADER, 5);
  }

  /** The same header to 10.0.2.200 does not: the last address word has its top bit set. */
  lemma HighAddressIsWrong()
    ensures var h := OWN_HEADER[9 := 0xC802];
            ProgramChecksum(h) != RfcChecksum(h) && OnesSum(h[5 := ProgramChecksum(h)]) != 0xFFFF
  {
    var h := OWN_HEADER[9 := 0xC802];
    NoHighWords(h);
    assert h[9] >= 0x8000;
    HeaderChecksumCorrectExactly(h);
    FinishedHeaderVerifies(h, 5);
  }

  lemma OwnTotal()
    ensures Total(OWN_HEADER) == 0x565c
  {
    var h := OWN_HEADER;
    TotalStep(h, 9); TotalStep(h, 8); TotalStep(h, 7); TotalStep(h, 6); TotalStep(h, 5);
    TotalStep(h, 4); TotalStep(h, 3); TotalStep(h, 2); TotalStep(h, 1); TotalStep(h, 0);
    assert h[..10] == h;
  }

  lemma TotalStep(ws: seq<Word>, i: nat)
    requires i < |ws|
    ensures Total(ws[..i + 1]) == Total(ws[..i]) + ws[i]
  {
    assert ws[..i + 1][..i] == ws[..i];
  }
}
