// The code-page table of core/src/code_page.cpp, and that the lookup may search it.

module Cp852 {
  import opened PrinterTypes
  import opened CodePages

  // The high half of code page 852, by codepoint.
  const PART_0: Table := [(0x00A0, 0xFF), (0x00A4, 0xCF), (0x00A7, 0xF5), (0x00A8, 0xF9),
    (0x00AB, 0xAE), (0x00AC, 0xAA), (0x00AD, 0xF0), (0x00B0, 0xF8)]
  const PART_1: Table := [(0x00B4, 0xEF), (0x00B8, 0xF7), (0x00BB, 0xAF), (0x00C1, 0xB5),
    (0x00C2, 0xB6), (0x00C4, 0x8E), (0x00C7, 0x80), (0x00C9, 0x90)]
  const PART_2: Table := [(0x00CB, 0xD3), (0x00CD, 0xD6), (0x00CE, 0xD7), (0x00D3, 0xE0),
    (0x00D4, 0xE2), (0x00D6, 0x99), (0x00D7, 0x9E), (0x00DA, 0xE9)]
  const PART_3: Table := [(0x00DC, 0x9A), (0x00DD, 0xED), (0x00DF, 0xE1), (0x00E1, 0xA0),
    (0x00E2, 0x83), (0x00E4, 0x84), (0x00E7, 0x87), (0x00E9, 0x82)]
  const PART_4: Table := [(0x00EB, 0x89), (0x00ED, 0xA1), (0x00EE, 0x8C), (0x00F3, 0xA2),
    (0x00F4, 0x93), (0x00F6, 0x94), (0x00F7, 0xF6), (0x00FA, 0xA3)]
  const PART_5: Table := [(0x00FC, 0x81), (0x00FD, 0xEC), (0x0102, 0xC6), (0x0103, 0xC7),
    (0x0104, 0xA4), (0x0105, 0xA5), (0x0106, 0x8F), (0x0107, 0x86)]
  const PART_6: Table := [(0x010C, 0xAC), (0x010D, 0x9F), (0x010E, 0xD2), (0x010F, 0xD4),
    (0x0110, 0xD1), (0x0111, 0xD0), (0x0118, 0xA8), (0x0119, 0xA9)]
  const PART_7: Table := [(0x011A, 0xB7), (0x011B, 0xD8), (0x0139, 0x91), (0x013A, 0x92),
    (0x013D, 0x95), (0x013E, 0x96), (0x0141, 0x9D), (0x0142, 0x88)]
  const PART_8: Table := [(0x0143, 0xE3), (0x0144, 0xE4), (0x0147, 0xD5), (0x0148, 0xE5),
    (0x0150, 0x8A), (0x0151, 0x8B), (0x0154, 0xE8), (0x0155, 0xEA)]
  const PART_9: Table := [(0x0158, 0xFC), (0x0159, 0xFD), (0x015A, 0x97), (0x015B, 0x98),
    (0x015E, 0xB8), (0x015F, 0xAD), (0x0160, 0xE6), (0x0161, 0xE7)]
  const PART_A: Table := [(0x0162, 0xDD), (0x0163, 0xEE), (0x0164, 0x9B), (0x0165, 0x9C),
    (0x016E, 0xDE), (0x016F, 0x85), (0x0170, 0xEB), (0x0171, 0xFB)]
  const PART_B: Table := [(0x0179, 0x8D), (0x017A, 0xAB), (0x017B, 0xBD), (0x017C, 0xBE),
    (0x017D, 0xA6), (0x017E, 0xA7), (0x02C7, 0xF3), (0x02D8, 0xF4)]
  const PART_C: Table := [(0x02D9, 0xFA), (0x02DB, 0xF2), (0x02DD, 0xF1), (0x2500, 0xC4),
    (0x2502, 0xB3), (0x250C, 0xDA), (0x2510, 0xBF), (0x2514, 0xC0)]
  const PART_D: Table := [(0x2518, 0xD9), (0x251C, 0xC3), (0x2524, 0xB4), (0x252C, 0xC2),
    (0x2534, 0xC1), (0x253C, 0xC5), (0x2550, 0xCD), (0x2551, 0xBA)]
  const PART_E: Table := [(0x2554, 0xC9), (0x2557, 0xBB), (0x255A, 0xC8), (0x255D, 0xBC),
    (0x2560, 0xCC), (0x2563, 0xB9), (0x2566, 0xCB), (0x2569, 0xCA)]
  const PART_F: Table := [(0x256C, 0xCE), (0x2580, 0xDF), (0x2584, 0xDC), (0x2588, 0xDB),
    (0x2591, 0xB0), (0x2592, 0xB1), (0x2593, 0xB2), (0x25A0, 0xFE)]

  const PARTS: seq<Table> := [PART_0, PART_1, PART_2, PART_3, PART_4, PART_5, PART_6, PART_7,
    PART_8, PART_9, PART_A, PART_B, PART_C, PART_D, PART_E, PART_F]

  function Joined(parts: seq<Table>): Table { if parts == [] then [] else parts[0] + Joined(parts[1..]) }

  const TABLE: Table := Joined(PARTS)

  // Neighbours ascend, between two bounds, and every pair is outside ASCII on both sides.
  predicate Ascends(t: Table, low: nat, high: nat) {
    && t != [] && t[0].0 == low && t[|t| - 1].0 == high
    && (forall i :: 0 <= i < |t| - 1 ==> t[i].0 < t[i + 1].0)
    && (forall i :: 0 <= i < |t| ==> t[i].0 >= 0x80 && t[i].1 >= 0x80)
  }

  lemma {:induction false} AscendsThroughout(t: Table, low: nat, high: nat, i: nat, j: nat)
    requires Ascends(t, low, high) && i < j < |t|
    ensures t[i].0 < t[j].0
    decreases j - i
  {
    if i + 1 < j { AscendsThroughout(t, low, high, i, j - 1); }
  }

  lemma PartsJoin(a: Table, low: nat, middle: nat, b: Table, next: nat, high: nat)
    requires Ascends(a, low, middle) && Ascends(b, next, high) && middle < next
    ensures Ascends(a + b, low, high)
  {
    forall i | 0 <= i < |a + b| - 1 ensures (a + b)[i].0 < (a + b)[i + 1].0 {
      if i == |a| - 1 { assert (a + b)[i + 1] == b[0]; }
    }
  }

  const BOUNDS: seq<(nat, nat)> := [(0x00A0, 0x00B0), (0x00B4, 0x00C9), (0x00CB, 0x00DA), (0x00DC, 0x00E9),
    (0x00EB, 0x00FA), (0x00FC, 0x0107), (0x010C, 0x0119), (0x011A, 0x0142),
    (0x0143, 0x0155), (0x0158, 0x0161), (0x0162, 0x0171), (0x0179, 0x02D8),
    (0x02D9, 0x2514), (0x2518, 0x2551), (0x2554, 0x2569), (0x256C, 0x25A0)]

  lemma Part0()
    ensures Ascends(PART_0, 0x00A0, 0x00B0) && |PART_0| == 8
  {
  }

  lemma Part1()
    ensures Ascends(PART_1, 0x00B4, 0x00C9) && |PART_1| == 8
  {
  }

  lemma Part2()
    ensures Ascends(PART_2, 0x00CB, 0x00DA) && |PART_2| == 8
  {
  }

  lemma Part3()
    ensures Ascends(PART_3, 0x00DC, 0x00E9) && |PART_3| == 8
  {
  }

  lemma Part4()
    ensures Ascends(PART_4, 0x00EB, 0x00FA) && |PART_4| == 8
  {
  }

  lemma Part5()
    ensures Ascends(PART_5, 0x00FC, 0x0107) && |PART_5| == 8
  {
  }

  lemma Part6()
    ensures Ascends(PART_6, 0x010C, 0x0119) && |PART_6| == 8
  {
  }

  lemma Part7()
    ensures Ascends(PART_7, 0x011A, 0x0142) && |PART_7| == 8
  {
  }

  lemma Part8()
    ensures Ascends(PART_8, 0x0143, 0x0155) && |PART_8| == 8
  {
  }

  lemma Part9()
    ensures Ascends(PART_9, 0x0158, 0x0161) && |PART_9| == 8
  {
  }

  lemma PartA()
    ensures Ascends(PART_A, 0x0162, 0x0171) && |PART_A| == 8
  {
  }

  lemma PartB()
    ensures Ascends(PART_B, 0x0179, 0x02D8) && |PART_B| == 8
  {
  }

  lemma PartC()
    ensures Ascends(PART_C, 0x02D9, 0x2514) && |PART_C| == 8
  {
  }

  lemma PartD()
    ensures Ascends(PART_D, 0x2518, 0x2551) && |PART_D| == 8
  {
  }

  lemma PartE()
    ensures Ascends(PART_E, 0x2554, 0x2569) && |PART_E| == 8
  {
  }

  lemma PartF()
    ensures Ascends(PART_F, 0x256C, 0x25A0) && |PART_F| == 8
  {
  }

  // From the k-th part on.
  lemma {:induction false} AllPartsJoin(k: nat)
    requires k < 16
    ensures Ascends(Joined(PARTS[k..]), BOUNDS[k].0, BOUNDS[15].1) && |Joined(PARTS[k..])| == 8 * (16 - k)
    decreases 16 - k
  {
    OnePart(k);
    assert PARTS[k..][0] == PARTS[k] && PARTS[k..][1..] == PARTS[k + 1..];
    if k < 15 {
      AllPartsJoin(k + 1);
      PartsJoin(PARTS[k], BOUNDS[k].0, BOUNDS[k].1, Joined(PARTS[k + 1..]), BOUNDS[k + 1].0, BOUNDS[15].1);
    } else {
      assert PARTS[16..] == [] && PARTS[k] + [] == PARTS[k];
    }
  }

  lemma OnePart(k: nat)
    requires k < 16
    ensures Ascends(PARTS[k], BOUNDS[k].0, BOUNDS[k].1) && |PARTS[k]| == 8
    ensures k < 15 ==> BOUNDS[k].1 < BOUNDS[k + 1].0
  {
    match k
    case 0 => Part0();
    case 1 => Part1();
    case 2 => Part2();
    case 3 => Part3();
    case 4 => Part4();
    case 5 => Part5();
    case 6 => Part6();
    case 7 => Part7();
    case 8 => Part8();
    case 9 => Part9();
    case 10 => PartA();
    case 11 => PartB();
    case 12 => PartC();
    case 13 => PartD();
    case 14 => PartE();
    case _ => PartF();
  }

  // The source's table is one that binary search may be run on, with all 128 entries.
  lemma TableIsATable()
    ensures IsTable(TABLE) && |TABLE| == 128
  {
    AllPartsJoin(0);
    assert PARTS[0..] == PARTS;
    forall i, j | 0 <= i < j < |TABLE| ensures TABLE[i].0 < TABLE[j].0 {
      AscendsThroughout(TABLE, BOUNDS[0].0, BOUNDS[15].1, i, j);
    }
  }
}
