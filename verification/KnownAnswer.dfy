/** The digest of "abc", worked out step by step: the one-block example published for SHA-256. */
module KnownAnswer {
  import opened Sha256

  const MESSAGE: seq<Byte> := [97, 98, 99]

  /** The message padded to one block: a one bit, zeros, and its length of 24 bits. */
  ghost predicate IsBlock(b: seq<Byte>) {
    && |b| == 64 && b[0] == 97 && b[1] == 98 && b[2] == 99 && b[3] == 0x80 && b[63] == 24
    && forall i :: 4 <= i < 63 ==> b[i] == 0
  }

  lemma PaddedMessage()
    ensures |Padding(3)| == 61 && IsBlock(MESSAGE + Padding(3))
  {
    assert Bits(3) == 24 && ZeroCount(3) == 52;
    forall i | 0 <= i < 8 ensures BigEndian(24, 8)[i] == if i == 7 then 24 else 0 {
      BigEndianAt(24, 8, i);
      SmallShift(24, 7 - i);
    }
  }

  lemma {:induction false} SmallShift(n: nat, bytes: nat)
    requires n < 256
    ensures ShiftRight(n, bytes) == if bytes == 0 then n else 0
    decreases bytes
  {
    if bytes > 0 {
      ShiftsToNothing(bytes - 1);
    }
  }

  lemma {:induction false} ShiftsToNothing(bytes: nat)
    ensures ShiftRight(0, bytes) == 0
    decreases bytes
  {
    if bytes > 0 {
      ShiftsToNothing(bytes - 1);
    }
  }

  // ----- The message schedule -----

  lemma FirstWords(b: seq<Byte>, t: nat)
    requires IsBlock(b) && t < 16
    ensures Schedule(b, t) == if t == 0 then 0x61626380 else if t == 15 then 24 else 0
  {
    hide Schedule, BlockWord;
    ScheduleStarts(b, t);
    var i := 4 * t;
    WordIs(b, t, b[i], b[i + 1], b[i + 2], b[i + 3]);
    if t == 0 {
      assert Big(97, 98, 99, 0x80) == 0x61626380;
    } else if t == 15 {
      assert Big(0, 0, 0, 24) == 24;
    } else {
      assert Big(0, 0, 0, 0) == 0;
    }
  }

  function Big(a: Byte, b: Byte, c: Byte, d: Byte): Word {
    ((a as Word) << 24) | ((b as Word) << 16) | ((c as Word) << 8) | (d as Word)
  }

  lemma WordIs(b: seq<Byte>, t: nat, w: Byte, x: Byte, y: Byte, z: Byte)
    requires |b| == 64 && t < 16 && b[4 * t] == w && b[4 * t + 1] == x && b[4 * t + 2] == y && b[4 * t + 3] == z
    ensures BlockWord(b, t) == Big(w, x, y, z)
  {
  }

  lemma ScheduleStarts(b: seq<Byte>, t: nat)
    requires |b| == 64 && t < 16
    ensures Schedule(b, t) == BlockWord(b, t)
  {
  }

  /** One word of the schedule from those before it. */
  lemma Extends(b: seq<Byte>, t: nat, w2: Word, w7: Word, w15: Word, w16: Word, w: Word)
    requires |b| == 64 && 16 <= t < 64
    requires Schedule(b, t - 2) == w2 && Schedule(b, t - 7) == w7 && Schedule(b, t - 15) == w15 && Schedule(b, t - 16) == w16
    requires Sum(SmallSigma1(w2), w7, SmallSigma0(w15), w16) == w
    ensures Schedule(b, t) == w
  {
  }

  lemma Words0(b: seq<Byte>)
    requires IsBlock(b)
    ensures forall t :: 0 <= t < 16 ==> Schedule(b, t) == if t == 0 then 0x61626380 else if t == 15 then 24 else 0
  {
    hide Schedule;
    forall t | 0 <= t < 16 ensures Schedule(b, t) == if t == 0 then 0x61626380 else if t == 15 then 24 else 0 {
      FirstWords(b, t);
    }
  }

  lemma Words16(b: seq<Byte>)
    requires IsBlock(b)
    ensures Schedule(b, 16) == 0x61626380 && Schedule(b, 17) == 0x000F0000 && Schedule(b, 18) == 0x7DA86405
    ensures Schedule(b, 19) == 0x600003C6 && Schedule(b, 20) == 0x3E9D7B78 && Schedule(b, 21) == 0x0183FC00
    ensures Schedule(b, 22) == 0x12DCBFDB && Schedule(b, 23) == 0xE2E2C38E && Schedule(b, 24) == 0xC8215C1A
    ensures Schedule(b, 25) == 0xB73679A2 && Schedule(b, 26) == 0xE5BC3909 && Schedule(b, 27) == 0x32663C5B
    ensures Schedule(b, 28) == 0x9D209D67 && Schedule(b, 29) == 0xEC8726CB && Schedule(b, 30) == 0x702138A4
    ensures Schedule(b, 31) == 0xD3B7973B
  {
    hide Schedule;
    Words0(b);
    Extends(b, 16, 0x00000000, 0x00000000, 0x00000000, 0x61626380, 0x61626380);
    Extends(b, 17, 0x00000018, 0x00000000, 0x00000000, 0x00000000, 0x000F0000);
    Extends(b, 18, 0x61626380, 0x00000000, 0x00000000, 0x00000000, 0x7DA86405);
    Extends(b, 19, 0x000F0000, 0x00000000, 0x00000000, 0x00000000, 0x600003C6);
    Extends(b, 20, 0x7DA86405, 0x00000000, 0x00000000, 0x00000000, 0x3E9D7B78);
    Extends(b, 21, 0x600003C6, 0x00000000, 0x00000000, 0x00000000, 0x0183FC00);
    Extends(b, 22, 0x3E9D7B78, 0x00000018, 0x00000000, 0x00000000, 0x12DCBFDB);
    Extends(b, 23, 0x0183FC00, 0x61626380, 0x00000000, 0x00000000, 0xE2E2C38E);
    Extends(b, 24, 0x12DCBFDB, 0x000F0000, 0x00000000, 0x00000000, 0xC8215C1A);
    Extends(b, 25, 0xE2E2C38E, 0x7DA86405, 0x00000000, 0x00000000, 0xB73679A2);
    Extends(b, 26, 0xC8215C1A, 0x600003C6, 0x00000000, 0x00000000, 0xE5BC3909);
    Extends(b, 27, 0xB73679A2, 0x3E9D7B78, 0x00000000, 0x00000000, 0x32663C5B);
    Extends(b, 28, 0xE5BC3909, 0x0183FC00, 0x00000000, 0x00000000, 0x9D209D67);
    Extends(b, 29, 0x32663C5B, 0x12DCBFDB, 0x00000000, 0x00000000, 0xEC8726CB);
    Extends(b, 30, 0x9D209D67, 0xE2E2C38E, 0x00000018, 0x00000000, 0x702138A4);
    Extends(b, 31, 0xEC8726CB, 0xC8215C1A, 0x61626380, 0x00000018, 0xD3B7973B);
  }

  lemma Words32(b: seq<Byte>)
    requires IsBlock(b)
    ensures Schedule(b, 32) == 0x93F5997F && Schedule(b, 33) == 0x3B68BA73 && Schedule(b, 34) == 0xAFF4FFC1
    ensures Schedule(b, 35) == 0xF10A5C62 && Schedule(b, 36) == 0x0A8B3996 && Schedule(b, 37) == 0x72AF830A
    ensures Schedule(b, 38) == 0x9409E33E && Schedule(b, 39) == 0x24641522 && Schedule(b, 40) == 0x9F47BF94
    ensures Schedule(b, 41) == 0xF0A64F5A && Schedule(b, 42) == 0x3E246A79 && Schedule(b, 43) == 0x27333BA3
    ensures Schedule(b, 44) == 0x0C4763F2 && Schedule(b, 45) == 0x840ABF27 && Schedule(b, 46) == 0x7A290D5D
    ensures Schedule(b, 47) == 0x065C43DA
  {
    hide Schedule;
    Words16(b);
    Extends(b, 32, 0x702138A4, 0xB73679A2, 0x000F0000, 0x61626380, 0x93F5997F);
    Extends(b, 33, 0xD3B7973B, 0xE5BC3909, 0x7DA86405, 0x000F0000, 0x3B68BA73);
    Extends(b, 34, 0x93F5997F, 0x32663C5B, 0x600003C6, 0x7DA86405, 0xAFF4FFC1);
    Extends(b, 35, 0x3B68BA73, 0x9D209D67, 0x3E9D7B78, 0x600003C6, 0xF10A5C62);
    Extends(b, 36, 0xAFF4FFC1, 0xEC8726CB, 0x0183FC00, 0x3E9D7B78, 0x0A8B3996);
    Extends(b, 37, 0xF10A5C62, 0x702138A4, 0x12DCBFDB, 0x0183FC00, 0x72AF830A);
    Extends(b, 38, 0x0A8B3996, 0xD3B7973B, 0xE2E2C38E, 0x12DCBFDB, 0x9409E33E);
    Extends(b, 39, 0x72AF830A, 0x93F5997F, 0xC8215C1A, 0xE2E2C38E, 0x24641522);
    Extends(b, 40, 0x9409E33E, 0x3B68BA73, 0xB73679A2, 0xC8215C1A, 0x9F47BF94);
    Extends(b, 41, 0x24641522, 0xAFF4FFC1, 0xE5BC3909, 0xB73679A2, 0xF0A64F5A);
    Extends(b, 42, 0x9F47BF94, 0xF10A5C62, 0x32663C5B, 0xE5BC3909, 0x3E246A79);
    Extends(b, 43, 0xF0A64F5A, 0x0A8B3996, 0x9D209D67, 0x32663C5B, 0x27333BA3);
    Extends(b, 44, 0x3E246A79, 0x72AF830A, 0xEC8726CB, 0x9D209D67, 0x0C4763F2);
    Extends(b, 45, 0x27333BA3, 0x9409E33E, 0x702138A4, 0xEC8726CB, 0x840ABF27);
    Extends(b, 46, 0x0C4763F2, 0x24641522, 0xD3B7973B, 0x702138A4, 0x7A290D5D);
    Extends(b, 47, 0x840ABF27, 0x9F47BF94, 0x93F5997F, 0xD3B7973B, 0x065C43DA);
  }

  lemma Words48(b: seq<Byte>)
    requires IsBlock(b)
    ensures Schedule(b, 48) == 0xFB3E89CB && Schedule(b, 49) == 0xCC7617DB && Schedule(b, 50) == 0xB9E66C34
    ensures Schedule(b, 51) == 0xA9993667 && Schedule(b, 52) == 0x84BADEDD && Schedule(b, 53) == 0xC21462BC
    ensures Schedule(b, 54) == 0x1487472C && Schedule(b, 55) == 0xB20F7A99 && Schedule(b, 56) == 0xEF57B9CD
    ensures Schedule(b, 57) == 0xEBE6B238 && Schedule(b, 58) == 0x9FE3095E && Schedule(b, 59) == 0x78BC8D4B
    ensures Schedule(b, 60) == 0xA43FCF15 && Schedule(b, 61) == 0x668B2FF8 && Schedule(b, 62) == 0xEEABA2CC
    ensures Schedule(b, 63) == 0x12B1EDEB
  {
    hide Schedule;
    Words32(b);
    Extends(b, 48, 0x7A290D5D, 0xF0A64F5A, 0x3B68BA73, 0x93F5997F, 0xFB3E89CB);
    Extends(b, 49, 0x065C43DA, 0x3E246A79, 0xAFF4FFC1, 0x3B68BA73, 0xCC7617DB);
    Extends(b, 50, 0xFB3E89CB, 0x27333BA3, 0xF10A5C62, 0xAFF4FFC1, 0xB9E66C34);
    Extends(b, 51, 0xCC7617DB, 0x0C4763F2, 0x0A8B3996, 0xF10A5C62, 0xA9993667);
    Extends(b, 52, 0xB9E66C34, 0x840ABF27, 0x72AF830A, 0x0A8B3996, 0x84BADEDD);
    Extends(b, 53, 0xA9993667, 0x7A290D5D, 0x9409E33E, 0x72AF830A, 0xC21462BC);
    Extends(b, 54, 0x84BADEDD, 0x065C43DA, 0x24641522, 0x9409E33E, 0x1487472C);
    Extends(b, 55, 0xC21462BC, 0xFB3E89CB, 0x9F47BF94, 0x24641522, 0xB20F7A99);
    Extends(b, 56, 0x1487472C, 0xCC7617DB, 0xF0A64F5A, 0x9F47BF94, 0xEF57B9CD);
    Extends(b, 57, 0xB20F7A99, 0xB9E66C34, 0x3E246A79, 0xF0A64F5A, 0xEBE6B238);
    Extends(b, 58, 0xEF57B9CD, 0xA9993667, 0x27333BA3, 0x3E246A79, 0x9FE3095E);
    Extends(b, 59, 0xEBE6B238, 0x84BADEDD, 0x0C4763F2, 0x27333BA3, 0x78BC8D4B);
    Extends(b, 60, 0x9FE3095E, 0xC21462BC, 0x840ABF27, 0x0C4763F2, 0xA43FCF15);
    Extends(b, 61, 0x78BC8D4B, 0x1487472C, 0x7A290D5D, 0x840ABF27, 0x668B2FF8);
    Extends(b, 62, 0xA43FCF15, 0xB20F7A99, 0x065C43DA, 0x7A290D5D, 0xEEABA2CC);
    Extends(b, 63, 0x668B2FF8, 0xEF57B9CD, 0xFB3E89CB, 0x065C43DA, 0x12B1EDEB);
  }

  // ----- The rounds -----

  /** One round: the new first and fifth words, and the others moved on. */
  lemma Turns(b: seq<Byte>, t: nat, v: Hash, k: Word, w: Word, first: Word, fifth: Word) returns (r: Hash)
    requires |b| == 64 && t < 64 && Rounds(INITIAL, b, t) == v && Schedule(b, t) == w && ROUND_CONSTANTS[t] == k
    requires Round(v, k, w) == Hash(first, v.a, v.b, v.c, fifth, v.e, v.f, v.g)
    ensures r == Hash(first, v.a, v.b, v.c, fifth, v.e, v.f, v.g) && Rounds(INITIAL, b, t + 1) == r
  {
    hide Round, Schedule;
    r := Hash(first, v.a, v.b, v.c, fifth, v.e, v.f, v.g);
  }

  lemma Rounds8(b: seq<Byte>)
    requires IsBlock(b)
    ensures Rounds(INITIAL, b, 8) ==
            Hash(0x85A07B5F, 0xE5030380, 0x2B4209F5, 0x04409A6A, 0x0C657A79, 0x9B27A401, 0x714260AD, 0x43ADA245)
  {
    hide Schedule, Rounds;
    Words0(b);
    Constants0();
    Constants4();
    NoRounds(b);
    var v := Hash(0x6A09E667, 0xBB67AE85, 0x3C6EF372, 0xA54FF53A, 0x510E527F, 0x9B05688C, 0x1F83D9AB, 0x5BE0CD19);
    v := Turns(b, 0, v, 0x428A2F98, 0x61626380, 0x5D6AEBCD, 0xFA2A4622);
    v := Turns(b, 1, v, 0x71374491, 0x00000000, 0x5A6AD9AD, 0x78CE7989);
    v := Turns(b, 2, v, 0xB5C0FBCF, 0x00000000, 0xC8C347A7, 0xF92939EB);
    v := Turns(b, 3, v, 0xE9B5DBA5, 0x00000000, 0xD550F666, 0x24E00850);
    v := Turns(b, 4, v, 0x3956C25B, 0x00000000, 0x04409A6A, 0x43ADA245);
    v := Turns(b, 5, v, 0x59F111F1, 0x00000000, 0x2B4209F5, 0x714260AD);
    v := Turns(b, 6, v, 0x923F82A4, 0x00000000, 0xE5030380, 0x9B27A401);
    v := Turns(b, 7, v, 0xAB1C5ED5, 0x00000000, 0x85A07B5F, 0x0C657A79);
  }

  lemma Constants0()
    ensures ROUND_CONSTANTS[0] == 0x428A2F98 && ROUND_CONSTANTS[1] == 0x71374491 && ROUND_CONSTANTS[2] == 0xB5C0FBCF
    ensures ROUND_CONSTANTS[3] == 0xE9B5DBA5
  {
  }

  lemma Constants4()
    ensures ROUND_CONSTANTS[4] == 0x3956C25B && ROUND_CONSTANTS[5] == 0x59F111F1 && ROUND_CONSTANTS[6] == 0x923F82A4
    ensures ROUND_CONSTANTS[7] == 0xAB1C5ED5
  {
  }

  lemma Rounds16(b: seq<Byte>)
    requires IsBlock(b)
    ensures Rounds(INITIAL, b, 16) ==
            Hash(0xB0FA238E, 0xC0645FDE, 0xD932EB16, 0x87912990, 0x07590DCD, 0x0B92F20C, 0x745A48DE, 0x1E578218)
  {
    hide Schedule, Rounds;
    Words0(b);
    Constants8();
    Constants12();
    Rounds8(b);
    var v := Hash(0x85A07B5F, 0xE5030380, 0x2B4209F5, 0x04409A6A, 0x0C657A79, 0x9B27A401, 0x714260AD, 0x43ADA245);
    v := Turns(b, 8, v, 0xD807AA98, 0x00000000, 0x8E04ECB9, 0x32CA2D8C);
    v := Turns(b, 9, v, 0x12835B01, 0x00000000, 0x8C87346B, 0x1CC92596);
    v := Turns(b, 10, v, 0x243185BE, 0x00000000, 0x4798A3F4, 0x436B23E8);
    v := Turns(b, 11, v, 0x550C7DC3, 0x00000000, 0xF71FC5A9, 0x816FD6E9);
    v := Turns(b, 12, v, 0x72BE5D74, 0x00000000, 0x87912990, 0x1E578218);
    v := Turns(b, 13, v, 0x80DEB1FE, 0x00000000, 0xD932EB16, 0x745A48DE);
    v := Turns(b, 14, v, 0x9BDC06A7, 0x00000000, 0xC0645FDE, 0x0B92F20C);
    v := Turns(b, 15, v, 0xC19BF174, 0x00000018, 0xB0FA238E, 0x07590DCD);
  }

  lemma Constants8()
    ensures ROUND_CONSTANTS[8] == 0xD807AA98 && ROUND_CONSTANTS[9] == 0x12835B01 && ROUND_CONSTANTS[10] == 0x243185BE
    ensures ROUND_CONSTANTS[11] == 0x550C7DC3
  {
  }

  lemma Constants12()
    ensures ROUND_CONSTANTS[12] == 0x72BE5D74 && ROUND_CONSTANTS[13] == 0x80DEB1FE && ROUND_CONSTANTS[14] == 0x9BDC06A7
    ensures ROUND_CONSTANTS[15] == 0xC19BF174
  {
  }

  lemma Rounds24(b: seq<Byte>)
    requires IsBlock(b)
    ensures Rounds(INITIAL, b, 24) ==
            Hash(0xC5D53D8D, 0xA7A3623F, 0xC2606D6D, 0x9DC68B63, 0xAA47C347, 0x49F5114A, 0xE1257970, 0x8ADA8930)
  {
    hide Schedule, Rounds;
    Words16(b);
    Constants16();
    Constants20();
    Rounds16(b);
    var v := Hash(0xB0FA238E, 0xC0645FDE, 0xD932EB16, 0x87912990, 0x07590DCD, 0x0B92F20C, 0x745A48DE, 0x1E578218);
    v := Turns(b, 16, v, 0xE49B69C1, 0x61626380, 0x21DA9A9B, 0x8034229C);
    v := Turns(b, 17, v, 0xEFBE4786, 0x000F0000, 0xC2FBD9D1, 0x846EE454);
    v := Turns(b, 18, v, 0x0FC19DC6, 0x7DA86405, 0xFE777BBF, 0xCC899961);
    v := Turns(b, 19, v, 0x240CA1CC, 0x600003C6, 0xE1F20C33, 0xB0638179);
    v := Turns(b, 20, v, 0x2DE92C6F, 0x3E9D7B78, 0x9DC68B63, 0x8ADA8930);
    v := Turns(b, 21, v, 0x4A7484AA, 0x0183FC00, 0xC2606D6D, 0xE1257970);
    v := Turns(b, 22, v, 0x5CB0A9DC, 0x12DCBFDB, 0xA7A3623F, 0x49F5114A);
    v := Turns(b, 23, v, 0x76F988DA, 0xE2E2C38E, 0xC5D53D8D, 0xAA47C347);
  }

  lemma Constants16()
    ensures ROUND_CONSTANTS[16] == 0xE49B69C1 && ROUND_CONSTANTS[17] == 0xEFBE4786 && ROUND_CONSTANTS[18] == 0x0FC19DC6
    ensures ROUND_CONSTANTS[19] == 0x240CA1CC
  {
  }

  lemma Constants20()
    ensures ROUND_CONSTANTS[20] == 0x2DE92C6F && ROUND_CONSTANTS[21] == 0x4A7484AA && ROUND_CONSTANTS[22] == 0x5CB0A9DC
    ensures ROUND_CONSTANTS[23] == 0x76F988DA
  {
  }

  lemma Rounds32(b: seq<Byte>)
    requires IsBlock(b)
    ensures Rounds(INITIAL, b, 32) ==
            Hash(0x73B33BF5, 0xEA992A22, 0xA0060B30, 0x363482C9, 0xBA591112, 0x0109AB3A, 0xADE79437, 0x6112A3B7)
  {
    hide Schedule, Rounds;
    Words16(b);
    Constants24();
    Constants28();
    Rounds24(b);
    var v := Hash(0xC5D53D8D, 0xA7A3623F, 0xC2606D6D, 0x9DC68B63, 0xAA47C347, 0x49F5114A, 0xE1257970, 0x8ADA8930);
    v := Turns(b, 24, v, 0x983E5152, 0xC8215C1A, 0x1C2C2838, 0x2823EF91);
    v := Turns(b, 25, v, 0xA831C66D, 0xB73679A2, 0xCDE8037D, 0x14383D8E);
    v := Turns(b, 26, v, 0xB00327C8, 0xE5BC3909, 0xB62EC4BC, 0xC74C6516);
    v := Turns(b, 27, v, 0xBF597FC7, 0x32663C5B, 0x77D37528, 0xEDFFBFF8);
    v := Turns(b, 28, v, 0xC6E00BF3, 0x9D209D67, 0x363482C9, 0x6112A3B7);
    v := Turns(b, 29, v, 0xD5A79147, 0xEC8726CB, 0xA0060B30, 0xADE79437);
    v := Turns(b, 30, v, 0x06CA6351, 0x702138A4, 0xEA992A22, 0x0109AB3A);
    v := Turns(b, 31, v, 0x14292967, 0xD3B7973B, 0x73B33BF5, 0xBA591112);
  }

  lemma Constants24()
    ensures ROUND_CONSTANTS[24] == 0x983E5152 && ROUND_CONSTANTS[25] == 0xA831C66D && ROUND_CONSTANTS[26] == 0xB00327C8
    ensures ROUND_CONSTANTS[27] == 0xBF597FC7
  {
  }

  lemma Constants28()
    ensures ROUND_CONSTANTS[28] == 0xC6E00BF3 && ROUND_CONSTANTS[29] == 0xD5A79147 && ROUND_CONSTANTS[30] == 0x06CA6351
    ensures ROUND_CONSTANTS[31] == 0x14292967
  {
  }

  lemma Rounds40(b: seq<Byte>)
    requires IsBlock(b)
    ensures Rounds(INITIAL, b, 40) ==
            Hash(0x79EA687A, 0x6DC57A8A, 0x34DF1604, 0x41A65CB1, 0x1EFBC0A0, 0xF0781BC8, 0xA507A53D, 0x0772A26B)
  {
    hide Schedule, Rounds;
    Words32(b);
    Constants32();
    Constants36();
    Rounds32(b);
    var v := Hash(0x73B33BF5, 0xEA992A22, 0xA0060B30, 0x363482C9, 0xBA591112, 0x0109AB3A, 0xADE79437, 0x6112A3B7);
    v := Turns(b, 32, v, 0x27B70A85, 0x93F5997F, 0x98E12507, 0x9CD9F5F6);
    v := Turns(b, 33, v, 0x2E1B2138, 0x3B68BA73, 0xFE604DF5, 0x59249DD3);
    v := Turns(b, 34, v, 0x4D2C6DFC, 0xAFF4FFC1, 0xA9A7738C, 0x085F3833);
    v := Turns(b, 35, v, 0x53380D13, 0xF10A5C62, 0x65A0CFE4, 0xF4B002D6);
    v := Turns(b, 36, v, 0x650A7354, 0x0A8B3996, 0x41A65CB1, 0x0772A26B);
    v := Turns(b, 37, v, 0x766A0ABB, 0x72AF830A, 0x34DF1604, 0xA507A53D);
    v := Turns(b, 38, v, 0x81C2C92E, 0x9409E33E, 0x6DC57A8A, 0xF0781BC8);
    v := Turns(b, 39, v, 0x92722C85, 0x24641522, 0x79EA687A, 0x1EFBC0A0);
  }

  lemma Constants32()
    ensures ROUND_CONSTANTS[32] == 0x27B70A85 && ROUND_CONSTANTS[33] == 0x2E1B2138 && ROUND_CONSTANTS[34] == 0x4D2C6DFC
    ensures ROUND_CONSTANTS[35] == 0x53380D13
  {
  }

  lemma Constants36()
    ensures ROUND_CONSTANTS[36] == 0x650A7354 && ROUND_CONSTANTS[37] == 0x766A0ABB && ROUND_CONSTANTS[38] == 0x81C2C92E
    ensures ROUND_CONSTANTS[39] == 0x92722C85
  {
  }

  lemma Rounds48(b: seq<Byte>)
    requires IsBlock(b)
    ensures Rounds(INITIAL, b, 48) ==
            Hash(0x4172328D, 0xA14C14B0, 0x72AB4B91, 0x26628815, 0xFECF0BC6, 0xD57B94A9, 0xB7755DA1, 0xA80F11F0)
  {
    hide Schedule, Rounds;
    Words32(b);
    Constants40();
    Constants44();
    Rounds40(b);
    var v := Hash(0x79EA687A, 0x6DC57A8A, 0x34DF1604, 0x41A65CB1, 0x1EFBC0A0, 0xF0781BC8, 0xA507A53D, 0x0772A26B);
    v := Turns(b, 40, v, 0xA2BFE8A1, 0x9F47BF94, 0xD6670766, 0x26352D63);
    v := Turns(b, 41, v, 0xA81A664B, 0xF0A64F5A, 0xDF46652F, 0x838B2711);
    v := Turns(b, 42, v, 0xC24B8B70, 0x3E246A79, 0x17AA0DFE, 0xDECD4715);
    v := Turns(b, 43, v, 0xC76C51A3, 0x27333BA3, 0x9D4BAF93, 0xFDA24C2E);
    v := Turns(b, 44, v, 0xD192E819, 0x0C4763F2, 0x26628815, 0xA80F11F0);
    v := Turns(b, 45, v, 0xD6990624, 0x840ABF27, 0x72AB4B91, 0xB7755DA1);
    v := Turns(b, 46, v, 0xF40E3585, 0x7A290D5D, 0xA14C14B0, 0xD57B94A9);
    v := Turns(b, 47, v, 0x106AA070, 0x065C43DA, 0x4172328D, 0xFECF0BC6);
  }

  lemma Constants40()
    ensures ROUND_CONSTANTS[40] == 0xA2BFE8A1 && ROUND_CONSTANTS[41] == 0xA81A664B && ROUND_CONSTANTS[42] == 0xC24B8B70
    ensures ROUND_CONSTANTS[43] == 0xC76C51A3
  {
  }

  lemma Constants44()
    ensures ROUND_CONSTANTS[44] == 0xD192E819 && ROUND_CONSTANTS[45] == 0xD6990624 && ROUND_CONSTANTS[46] == 0xF40E3585
    ensures ROUND_CONSTANTS[47] == 0x106AA070
  {
  }

  lemma Rounds56(b: seq<Byte>)
    requires IsBlock(b)
    ensures Rounds(INITIAL, b, 56) ==
            Hash(0x38CC9913, 0x3EC45CDB, 0xF5702FDB, 0x101FD28F, 0x54CB266B, 0xE50E1B4F, 0x9F4787C3, 0x529E7D00)
  {
    hide Schedule, Rounds;
    Words48(b);
    Constants48();
    Constants52();
    Rounds48(b);
    var v := Hash(0x4172328D, 0xA14C14B0, 0x72AB4B91, 0x26628815, 0xFECF0BC6, 0xD57B94A9, 0xB7755DA1, 0xA80F11F0);
    v := Turns(b, 48, v, 0x19A4C116, 0xFB3E89CB, 0x05757CEB, 0xBD714038);
    v := Turns(b, 49, v, 0x1E376C08, 0xCC7617DB, 0xF11BFAA8, 0x6E5C390C);
    v := Turns(b, 50, v, 0x2748774C, 0xB9E66C34, 0x7A0508A1, 0x52F1CCF7);
    v := Turns(b, 51, v, 0x34B0BCB5, 0xA9993667, 0x886E7A22, 0x49231C1E);
    v := Turns(b, 52, v, 0x391C0CB3, 0x84BADEDD, 0x101FD28F, 0x529E7D00);
    v := Turns(b, 53, v, 0x4ED8AA4A, 0xC21462BC, 0xF5702FDB, 0x9F4787C3);
    v := Turns(b, 54, v, 0x5B9CCA4F, 0x1487472C, 0x3EC45CDB, 0xE50E1B4F);
    v := Turns(b, 55, v, 0x682E6FF3, 0xB20F7A99, 0x38CC9913, 0x54CB266B);
  }

  lemma Constants48()
    ensures ROUND_CONSTANTS[48] == 0x19A4C116 && ROUND_CONSTANTS[49] == 0x1E376C08 && ROUND_CONSTANTS[50] == 0x2748774C
    ensures ROUND_CONSTANTS[51] == 0x34B0BCB5
  {
  }

  lemma Constants52()
    ensures ROUND_CONSTANTS[52] == 0x391C0CB3 && ROUND_CONSTANTS[53] == 0x4ED8AA4A && ROUND_CONSTANTS[54] == 0x5B9CCA4F
    ensures ROUND_CONSTANTS[55] == 0x682E6FF3
  {
  }

  lemma Rounds64(b: seq<Byte>)
    requires IsBlock(b)
    ensures Rounds(INITIAL, b, 64) ==
            Hash(0x506E3058, 0xD39A2165, 0x04D24D6C, 0xB85E2CE9, 0x5EF50F24, 0xFB121210, 0x948D25B6, 0x961F4894)
  {
    hide Schedule, Rounds;
    Words48(b);
    Constants56();
    Constants60();
    Rounds56(b);
    var v := Hash(0x38CC9913, 0x3EC45CDB, 0xF5702FDB, 0x101FD28F, 0x54CB266B, 0xE50E1B4F, 0x9F4787C3, 0x529E7D00);
    v := Turns(b, 56, v, 0x748F82EE, 0xEF57B9CD, 0xFCD1887B, 0x9B5E906C);
    v := Turns(b, 57, v, 0x78A5636F, 0xEBE6B238, 0xC062D46F, 0x7E44008E);
    v := Turns(b, 58, v, 0x84C87814, 0x9FE3095E, 0xFFB70472, 0x6D83BFC6);
    v := Turns(b, 59, v, 0x8CC70208, 0x78BC8D4B, 0xB6AE8FFF, 0xB21BAD3D);
    v := Turns(b, 60, v, 0x90BEFFFA, 0xA43FCF15, 0xB85E2CE9, 0x961F4894);
    v := Turns(b, 61, v, 0xA4506CEB, 0x668B2FF8, 0x04D24D6C, 0x948D25B6);
    v := Turns(b, 62, v, 0xBEF9A3F7, 0xEEABA2CC, 0xD39A2165, 0xFB121210);
    v := Turns(b, 63, v, 0xC67178F2, 0x12B1EDEB, 0x506E3058, 0x5EF50F24);
  }

  lemma Constants56()
    ensures ROUND_CONSTANTS[56] == 0x748F82EE && ROUND_CONSTANTS[57] == 0x78A5636F && ROUND_CONSTANTS[58] == 0x84C87814
    ensures ROUND_CONSTANTS[59] == 0x8CC70208
  {
  }

  lemma Constants60()
    ensures ROUND_CONSTANTS[60] == 0x90BEFFFA && ROUND_CONSTANTS[61] == 0xA4506CEB && ROUND_CONSTANTS[62] == 0xBEF9A3F7
    ensures ROUND_CONSTANTS[63] == 0xC67178F2
  {
  }

  lemma NoRounds(b: seq<Byte>)
    requires |b| == 64
    ensures Rounds(INITIAL, b, 0) == INITIAL
  {
  }

  // ----- The digest -----

  const DIGEST: seq<seq<Byte>> := [
    [0xBA, 0x78, 0x16, 0xBF], [0x8F, 0x01, 0xCF, 0xEA], [0x41, 0x41, 0x40, 0xDE], [0x5D, 0xAE, 0x22, 0x23],
    [0xB0, 0x03, 0x61, 0xA3], [0x96, 0x17, 0x7A, 0x9C], [0xB4, 0x10, 0xFF, 0x61], [0xF2, 0x00, 0x15, 0xAD]]

  lemma BlockHash(b: seq<Byte>)
    requires IsBlock(b)
    ensures NextHash(INITIAL, b) ==
            Hash(0xBA7816BF, 0x8F01CFEA, 0x414140DE, 0x5DAE2223, 0xB00361A3, 0x96177A9C, 0xB410FF61, 0xF20015AD)
  {
    hide Rounds;
    Rounds64(b);
  }

  lemma {:induction false} JoinedIs(words: seq<Word>, bytes: seq<seq<Byte>>)
    requires |words| == |bytes| && forall i :: 0 <= i < |words| ==> WordBytes(words[i]) == bytes[i]
    ensures Joined(words) == Flatten(bytes)
    decreases |words|
  {
    hide WordBytes;
    if words != [] {
      JoinedIs(words[..|words| - 1], bytes[..|bytes| - 1]);
    }
  }

  lemma OutputBytes()
    ensures Output(Hash(0xBA7816BF, 0x8F01CFEA, 0x414140DE, 0x5DAE2223, 0xB00361A3, 0x96177A9C, 0xB410FF61, 0xF20015AD)) ==
            Flatten(DIGEST)
  {
    hide Joined;
    assert WordBytes(0xBA7816BF) == [0xBA, 0x78, 0x16, 0xBF];
    assert WordBytes(0x8F01CFEA) == [0x8F, 0x01, 0xCF, 0xEA];
    assert WordBytes(0x414140DE) == [0x41, 0x41, 0x40, 0xDE];
    assert WordBytes(0x5DAE2223) == [0x5D, 0xAE, 0x22, 0x23];
    assert WordBytes(0xB00361A3) == [0xB0, 0x03, 0x61, 0xA3];
    assert WordBytes(0x96177A9C) == [0x96, 0x17, 0x7A, 0x9C];
    assert WordBytes(0xB410FF61) == [0xB4, 0x10, 0xFF, 0x61];
    assert WordBytes(0xF20015AD) == [0xF2, 0x00, 0x15, 0xAD];
    JoinedIs([0xBA7816BF, 0x8F01CFEA, 0x414140DE, 0x5DAE2223,
              0xB00361A3, 0x96177A9C, 0xB410FF61, 0xF20015AD], DIGEST);
  }

  /** The digest of "abc" is the published one. */
  lemma DigestOfAbc()
    ensures Digest(MESSAGE) == Flatten(DIGEST)
  {
    hide Fold, NextHash, Padding, Output;
    PaddedMessage();
    PaddedLength(3);
    var b := MESSAGE + Padding(3);
    FoldBlock(INITIAL, b);
    BlockHash(b);
    OutputBytes();
  }
}
