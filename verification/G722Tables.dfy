/** The constant tables of ITU-T G.722 as the codec spells them, and what they have to do with each other. */
module G722Tables {

  /** Decision thresholds of the lower quantiser. */
  function Q6(k: nat): (r: nat)
    requires k < 31
    ensures r <= 3200
    ensures k == 0 ==> r == 0
    ensures k == 30 ==> r == 3200
  {
    match k
    case 0 => 0 case 1 => 35 case 2 => 72 case 3 => 110 case 4 => 150 case 5 => 190 case 6 => 233 case 7 => 276
    case 8 => 323 case 9 => 370 case 10 => 422 case 11 => 473 case 12 => 530 case 13 => 587 case 14 => 650
    case 15 => 714 case 16 => 786 case 17 => 858 case 18 => 940 case 19 => 1023 case 20 => 1121 case 21 => 1219
    case 22 => 1339 case 23 => 1458 case 24 => 1612 case 25 => 1765 case 26 => 1980 case 27 => 2195
    case 28 => 2557 case 29 => 2919 case _ => 3200
  }

  /** Reconstruction levels of the lower quantiser. */
  function Oq6(k: nat): (r: nat)
    requires k < 31
    ensures r <= 3101
  {
    match k
    case 0 => 0 case 1 => 17 case 2 => 54 case 3 => 91 case 4 => 130 case 5 => 170 case 6 => 211 case 7 => 254
    case 8 => 300 case 9 => 347 case 10 => 396 case 11 => 447 case 12 => 501 case 13 => 558 case 14 => 618
    case 15 => 682 case 16 => 750 case 17 => 822 case 18 => 899 case 19 => 982 case 20 => 1072 case 21 => 1170
    case 22 => 1279 case 23 => 1399 case 24 => 1535 case 25 => 1689 case 26 => 1873 case 27 => 2088
    case 28 => 2376 case 29 => 2738 case _ => 3101
  }

  // The four-bit tables behind the predictor feedback, indexed by a code shifted right by two.

  function Ril4(ril: nat): (r: nat)
    requires ril < 16
    ensures r < 8
  {
    match ril
    case 0 => 0 case 1 => 7 case 2 => 6 case 3 => 5 case 4 => 4 case 5 => 3 case 6 => 2 case 7 => 1 case 8 => 7
    case 9 => 6 case 10 => 5 case 11 => 4 case 12 => 3 case 13 => 2 case 14 => 1 case _ => 0
  }

  function Risil(ril: nat): (r: int)
    requires ril < 16
  {
    match ril
    case 0 => 0 case 1 => -1 case 2 => -1 case 3 => -1 case 4 => -1 case 5 => -1 case 6 => -1 case 7 => -1
    case 8 => 0 case 9 => 0 case 10 => 0 case 11 => 0 case 12 => 0 case 13 => 0 case 14 => 0 case _ => 0
  }

  function Oq4(k: nat): (r: nat)
    requires k < 8
    ensures r <= 2557
  {
    match k
    case 0 => 0 case 1 => 150 case 2 => 323 case 3 => 530 case 4 => 786 case 5 => 1121 case 6 => 1612
    case _ => 2557
  }

  function Wl(k: nat): (r: int)
    requires k < 8
    ensures -60 <= r <= 3042
  {
    match k
    case 0 => -60 case 1 => -30 case 2 => 58 case 3 => 172 case 4 => 334 case 5 => 538 case 6 => 1198
    case _ => 3042
  }

  // The two-bit tables of the upper sub-band.

  function Ih2(ih: nat): (r: nat)
    requires ih < 4
    ensures 1 <= r < 3
  {
    match ih
    case 0 => 2 case 1 => 1 case 2 => 2 case _ => 1
  }

  function Sih(ih: nat): (r: int)
    requires ih < 4
    ensures r == if ih < 2 then -1 else 0
  {
    match ih
    case 0 => -1 case 1 => -1 case 2 => 0 case _ => 0
  }

  function Oq2(k: nat): (r: nat)
    requires k < 3
    ensures r <= 926
  {
    match k
    case 0 => 0 case 1 => 202 case _ => 926
  }

  function Wh(k: nat): (r: int)
    requires k < 3
    ensures -214 <= r <= 798
  {
    match k
    case 0 => 0 case 1 => -214 case _ => 798
  }

  /** The 24 QMF taps, already doubled. */
  function Qmf(k: nat): (r: int)
    requires k < 24
  {
    match k
    case 0 => 6 case 1 => -22 case 2 => -22 case 3 => 106 case 4 => 24 case 5 => -312 case 6 => 64
    case 7 => 724 case 8 => -420 case 9 => -1610 case 10 => 1902 case 11 => 7752 case 12 => 7752
    case 13 => 1902 case 14 => -1610 case 15 => -420 case 16 => 724 case 17 => 64 case 18 => -312 case 19 => 24
    case 20 => 106 case 21 => -22 case 22 => -22 case _ => 6
  }

  // Quantiser code tables, for negative differences and for the others.

  function MisilNegative(mil: nat): (r: nat)
    requires mil < 32
    ensures r < 64
  {
    match mil
    case 0 => 0 case 1 => 63 case 2 => 62 case 3 => 31 case 4 => 30 case 5 => 29 case 6 => 28 case 7 => 27
    case 8 => 26 case 9 => 25 case 10 => 24 case 11 => 23 case 12 => 22 case 13 => 21 case 14 => 20
    case 15 => 19 case 16 => 18 case 17 => 17 case 18 => 16 case 19 => 15 case 20 => 14 case 21 => 13
    case 22 => 12 case 23 => 11 case 24 => 10 case 25 => 9 case 26 => 8 case 27 => 7 case 28 => 6 case 29 => 5
    case 30 => 4 case _ => 0
  }

  function MisilPositive(mil: nat): (r: nat)
    requires mil < 32
    ensures r < 64
  {
    match mil
    case 0 => 0 case 1 => 61 case 2 => 60 case 3 => 59 case 4 => 58 case 5 => 57 case 6 => 56 case 7 => 55
    case 8 => 54 case 9 => 53 case 10 => 52 case 11 => 51 case 12 => 50 case 13 => 49 case 14 => 48
    case 15 => 47 case 16 => 46 case 17 => 45 case 18 => 44 case 19 => 43 case 20 => 42 case 21 => 41
    case 22 => 40 case 23 => 39 case 24 => 38 case 25 => 37 case 26 => 36 case 27 => 35 case 28 => 34
    case 29 => 33 case 30 => 32 case _ => 0
  }

  function Misih(negative: bool, mih: nat): (r: nat)
    requires 1 <= mih < 3
    ensures r < 4
  {
    if negative then (if mih == 1 then 1 else 0) else (if mih == 1 then 3 else 2)
  }

  // The antilogarithm table, 353 entries, by octaves of 32.

  /** Entry j of octave k; the last octave has one entry only. */
  function Octave(k: nat, j: nat): (r: int)
    requires (k < 11 && j < 32) || (k == 11 && j == 0)
  {
    match k
    case 0 => (
      match j
      case 0 => 1 case 1 => 1 case 2 => 1 case 3 => 1 case 4 => 1 case 5 => 1 case 6 => 1 case 7 => 1 case 8 => 1
      case 9 => 1 case 10 => 1 case 11 => 1 case 12 => 1 case 13 => 1 case 14 => 1 case 15 => 1 case 16 => 1
      case 17 => 1 case 18 => 1 case 19 => 2 case 20 => 2 case 21 => 2 case 22 => 2 case 23 => 2 case 24 => 2
      case 25 => 2 case 26 => 2 case 27 => 2 case 28 => 2 case 29 => 2 case 30 => 2 case _ => 2
    )
    case 1 => (
      match j
      case 0 => 3 case 1 => 3 case 2 => 3 case 3 => 3 case 4 => 3 case 5 => 3 case 6 => 3 case 7 => 3 case 8 => 3
      case 9 => 3 case 10 => 3 case 11 => 4 case 12 => 4 case 13 => 4 case 14 => 4 case 15 => 4 case 16 => 4
      case 17 => 4 case 18 => 4 case 19 => 5 case 20 => 5 case 21 => 5 case 22 => 5 case 23 => 5 case 24 => 5
      case 25 => 5 case 26 => 6 case 27 => 6 case 28 => 6 case 29 => 6 case 30 => 6 case _ => 6
    )
    case 2 => (
      match j
      case 0 => 7 case 1 => 7 case 2 => 7 case 3 => 7 case 4 => 7 case 5 => 7 case 6 => 8 case 7 => 8 case 8 => 8
      case 9 => 8 case 10 => 8 case 11 => 9 case 12 => 9 case 13 => 9 case 14 => 9 case 15 => 10 case 16 => 10
      case 17 => 10 case 18 => 10 case 19 => 11 case 20 => 11 case 21 => 11 case 22 => 11 case 23 => 12
      case 24 => 12 case 25 => 12 case 26 => 13 case 27 => 13 case 28 => 13 case 29 => 13 case 30 => 14
      case _ => 14
    )
    case 3 => (
      match j
      case 0 => 15 case 1 => 15 case 2 => 15 case 3 => 16 case 4 => 16 case 5 => 16 case 6 => 17 case 7 => 17
      case 8 => 18 case 9 => 18 case 10 => 18 case 11 => 19 case 12 => 19 case 13 => 20 case 14 => 20
      case 15 => 21 case 16 => 21 case 17 => 22 case 18 => 22 case 19 => 23 case 20 => 23 case 21 => 24
      case 22 => 24 case 23 => 25 case 24 => 25 case 25 => 26 case 26 => 27 case 27 => 27 case 28 => 28
      case 29 => 28 case 30 => 29 case _ => 30
    )
    case 4 => (
      match j
      case 0 => 31 case 1 => 31 case 2 => 32 case 3 => 33 case 4 => 33 case 5 => 34 case 6 => 35 case 7 => 36
      case 8 => 37 case 9 => 37 case 10 => 38 case 11 => 39 case 12 => 40 case 13 => 41 case 14 => 42
      case 15 => 43 case 16 => 44 case 17 => 45 case 18 => 46 case 19 => 47 case 20 => 48 case 21 => 49
      case 22 => 50 case 23 => 51 case 24 => 52 case 25 => 54 case 26 => 55 case 27 => 56 case 28 => 57
      case 29 => 58 case 30 => 60 case _ => 61
    )
    case 5 => (
      match j
      case 0 => 63 case 1 => 64 case 2 => 65 case 3 => 67 case 4 => 68 case 5 => 70 case 6 => 71 case 7 => 73
      case 8 => 75 case 9 => 76 case 10 => 78 case 11 => 80 case 12 => 82 case 13 => 83 case 14 => 85
      case 15 => 87 case 16 => 89 case 17 => 91 case 18 => 93 case 19 => 95 case 20 => 97 case 21 => 99
      case 22 => 102 case 23 => 104 case 24 => 106 case 25 => 109 case 26 => 111 case 27 => 113 case 28 => 116
      case 29 => 118 case 30 => 121 case _ => 124
    )
    case 6 => (
      match j
      case 0 => 127 case 1 => 129 case 2 => 132 case 3 => 135 case 4 => 138 case 5 => 141 case 6 => 144
      case 7 => 147 case 8 => 151 case 9 => 154 case 10 => 157 case 11 => 161 case 12 => 165 case 13 => 168
      case 14 => 172 case 15 => 176 case 16 => 180 case 17 => 184 case 18 => 188 case 19 => 192 case 20 => 196
      case 21 => 200 case 22 => 205 case 23 => 209 case 24 => 214 case 25 => 219 case 26 => 223 case 27 => 228
      case 28 => 233 case 29 => 238 case 30 => 244 case _ => 249
    )
    case 7 => (
      match j
      case 0 => 255 case 1 => 260 case 2 => 266 case 3 => 272 case 4 => 278 case 5 => 284 case 6 => 290
      case 7 => 296 case 8 => 303 case 9 => 310 case 10 => 316 case 11 => 323 case 12 => 331 case 13 => 338
      case 14 => 345 case 15 => 353 case 16 => 361 case 17 => 369 case 18 => 377 case 19 => 385 case 20 => 393
      case 21 => 402 case 22 => 411 case 23 => 420 case 24 => 429 case 25 => 439 case 26 => 448 case 27 => 458
      case 28 => 468 case 29 => 478 case 30 => 489 case _ => 500
    )
    case 8 => (
      match j
      case 0 => 511 case 1 => 522 case 2 => 533 case 3 => 545 case 4 => 557 case 5 => 569 case 6 => 582
      case 7 => 594 case 8 => 607 case 9 => 621 case 10 => 634 case 11 => 648 case 12 => 663 case 13 => 677
      case 14 => 692 case 15 => 707 case 16 => 723 case 17 => 739 case 18 => 755 case 19 => 771 case 20 => 788
      case 21 => 806 case 22 => 823 case 23 => 841 case 24 => 860 case 25 => 879 case 26 => 898 case 27 => 918
      case 28 => 938 case 29 => 958 case 30 => 979 case _ => 1001
    )
    case 9 => (
      match j
      case 0 => 1023 case 1 => 1045 case 2 => 1068 case 3 => 1092 case 4 => 1115 case 5 => 1140 case 6 => 1165
      case 7 => 1190 case 8 => 1216 case 9 => 1243 case 10 => 1270 case 11 => 1298 case 12 => 1327
      case 13 => 1356 case 14 => 1386 case 15 => 1416 case 16 => 1447 case 17 => 1479 case 18 => 1511
      case 19 => 1544 case 20 => 1578 case 21 => 1613 case 22 => 1648 case 23 => 1684 case 24 => 1721
      case 25 => 1759 case 26 => 1797 case 27 => 1837 case 28 => 1877 case 29 => 1918 case 30 => 1960
      case _ => 2003
    )
    case 10 => (
      match j
      case 0 => 2047 case 1 => 2092 case 2 => 2138 case 3 => 2185 case 4 => 2232 case 5 => 2281 case 6 => 2331
      case 7 => 2382 case 8 => 2434 case 9 => 2488 case 10 => 2542 case 11 => 2598 case 12 => 2655
      case 13 => 2713 case 14 => 2773 case 15 => 2833 case 16 => 2895 case 17 => 2959 case 18 => 3024
      case 19 => 3090 case 20 => 3157 case 21 => 3227 case 22 => 3297 case 23 => 3370 case 24 => 3443
      case 25 => 3519 case 26 => 3596 case 27 => 3675 case 28 => 3755 case 29 => 3837 case 30 => 3921
      case _ => 4007
    )
    case _ => 4095
  }

  lemma OctaveRange(k: nat, j: nat)
    requires k < 11 && j < 32
    ensures (if k >= 2 then 7 else 1) <= Octave(k, j) <= 4095
  {
  }

  lemma OctaveGrows(k: nat, j: nat)
    requires k < 11 && j < 32
    ensures if j < 31 then Octave(k, j) <= Octave(k, j + 1) else Octave(k, 31) <= Octave(k + 1, 0)
  {
  }

  /** An entry and the one an octave above it; one more than an entry is the step in units of four. */
  predicate Doubled(low: int, high: int) {
    2 * (low + 1) <= high + 1 <= 2 * (low + 1) + 1
  }

  lemma OctaveDoubles(k: nat, j: nat)
    requires k < 11 && j < 32 && (k == 10 ==> j == 0)
    ensures Doubled(Octave(k, j), Octave(k + 1, j))
  {
  }

  /** Entry i of the antilogarithm table. */
  function Ila(i: nat): (r: int)
    requires i < 353
    ensures 1 <= r <= 4095
    ensures i >= 64 ==> r >= 7
  {
    if i < 352 then
      OctaveRange(i / 32, i % 32);
      Octave(i / 32, i % 32)
    else 4095
  }

  lemma NextEntry(i: nat)
    requires i + 1 < 353
    ensures Ila(i) <= Ila(i + 1)
  {
    assert Octave(11, 0) == 4095;
    hide Octave;
    OctaveGrows(i / 32, i % 32);
    if i % 32 < 31 {
      assert (i + 1) / 32 == i / 32 && (i + 1) % 32 == i % 32 + 1;
    } else {
      assert (i + 1) / 32 == i / 32 + 1 && (i + 1) % 32 == 0;
    }
  }

  /** The table never falls. */
  lemma {:induction false} IlaGrows(i: nat, j: nat)
    requires i <= j < 353
    ensures Ila(i) <= Ila(j)
  {
    hide Ila;
    if i < j {
      IlaGrows(i, j - 1);
      NextEntry(j - 1);
    }
  }

  /** Thirty-two entries up the table doubles: it is an antilogarithm, up to one unit of rounding. */
  lemma IlaDoubles(i: nat)
    requires i + 32 < 353
    ensures Doubled(Ila(i), Ila(i + 32))
  {
    assert Octave(11, 0) == 4095;
    hide Octave, Doubled;
    assert (i + 32) / 32 == i / 32 + 1 && (i + 32) % 32 == i % 32;
    OctaveDoubles(i / 32, i % 32);
  }

  // The 64-entry tables indexed by a lower sub-band code.

  function Ril6(code: nat): (r: nat)
    requires code < 64
    ensures 1 <= r <= 30
  {
    match code
    case 0 => 1 case 1 => 1 case 2 => 1 case 3 => 1 case 4 => 30 case 5 => 29 case 6 => 28 case 7 => 27
    case 8 => 26 case 9 => 25 case 10 => 24 case 11 => 23 case 12 => 22 case 13 => 21 case 14 => 20
    case 15 => 19 case 16 => 18 case 17 => 17 case 18 => 16 case 19 => 15 case 20 => 14 case 21 => 13
    case 22 => 12 case 23 => 11 case 24 => 10 case 25 => 9 case 26 => 8 case 27 => 7 case 28 => 6 case 29 => 5
    case 30 => 4 case 31 => 3 case 32 => 30 case 33 => 29 case 34 => 28 case 35 => 27 case 36 => 26
    case 37 => 25 case 38 => 24 case 39 => 23 case 40 => 22 case 41 => 21 case 42 => 20 case 43 => 19
    case 44 => 18 case 45 => 17 case 46 => 16 case 47 => 15 case 48 => 14 case 49 => 13 case 50 => 12
    case 51 => 11 case 52 => 10 case 53 => 9 case 54 => 8 case 55 => 7 case 56 => 6 case 57 => 5 case 58 => 4
    case 59 => 3 case 60 => 2 case 61 => 1 case 62 => 2 case _ => 1
  }

  function Risi6(code: nat): (r: int)
    requires code < 64
    ensures r == if code < 32 || code >= 62 then -1 else 0
  {
    match code
    case 0 => -1 case 1 => -1 case 2 => -1 case 3 => -1 case 4 => -1 case 5 => -1 case 6 => -1 case 7 => -1
    case 8 => -1 case 9 => -1 case 10 => -1 case 11 => -1 case 12 => -1 case 13 => -1 case 14 => -1
    case 15 => -1 case 16 => -1 case 17 => -1 case 18 => -1 case 19 => -1 case 20 => -1 case 21 => -1
    case 22 => -1 case 23 => -1 case 24 => -1 case 25 => -1 case 26 => -1 case 27 => -1 case 28 => -1
    case 29 => -1 case 30 => -1 case 31 => -1 case 32 => 0 case 33 => 0 case 34 => 0 case 35 => 0 case 36 => 0
    case 37 => 0 case 38 => 0 case 39 => 0 case 40 => 0 case 41 => 0 case 42 => 0 case 43 => 0 case 44 => 0
    case 45 => 0 case 46 => 0 case 47 => 0 case 48 => 0 case 49 => 0 case 50 => 0 case 51 => 0 case 52 => 0
    case 53 => 0 case 54 => 0 case 55 => 0 case 56 => 0 case 57 => 0 case 58 => 0 case 59 => 0 case 60 => 0
    case 61 => 0 case 62 => -1 case _ => -1
  }

  /** The six-bit code sent for a cell: the quantiser's own table. */
  function CodeOf(negative: bool, cell: nat): (r: nat)
    requires 1 <= cell <= 30
    ensures 4 <= r < 64
  {
    if negative then MisilNegative(cell) else MisilPositive(cell)
  }

  lemma NegativeCodes(cell: nat)
    requires 1 <= cell <= 30
    ensures MisilNegative(cell) == if cell <= 2 then 64 - cell else 34 - cell
  {
  }

  lemma PositiveCodes(cell: nat)
    requires 1 <= cell <= 30
    ensures MisilPositive(cell) == 62 - cell
  {
  }

  lemma LevelOf(code: nat)
    requires 4 <= code < 64
    ensures Ril6(code) == if code < 32 then 34 - code else if code < 62 then 62 - code else 64 - code
  {
  }

  /** The decoder's tables undo the encoder's: the magnitude cell and the sign come back. */
  lemma CodeDecodes(negative: bool, cell: nat)
    requires 1 <= cell <= 30
    ensures Ril6(CodeOf(negative, cell)) == cell
    ensures Risi6(CodeOf(negative, cell)) == if negative then -1 else 0
  {
    hide MisilNegative, MisilPositive, Ril6, Risi6;
    NegativeCodes(cell);
    PositiveCodes(cell);
    LevelOf(CodeOf(negative, cell));
  }
}
