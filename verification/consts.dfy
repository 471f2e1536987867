/// The fixed tables of GB/T 32907-2016: the S-box (section 6.2) and the
/// key-schedule constants FK and CK (section 7.3).
///
/// The S-box is sixteen row functions of sixteen cases each, selected by the
/// high nibble, rather than one 256-entry sequence or one 256-case match:
/// every proof in which the S-box occurs then sees a two-level choice of
/// sixteen cases, which keeps the verifier's work on those proofs small.
module Sm4Consts {
  /// The substitution box, laid out as the standard prints it: the high
  /// nibble of the byte picks the row, the low nibble the column.
  function Sbox(b: bv8): bv8 {
    var lo := b & 0xF;
    match b >> 4
    case 0x0 => SboxRow0(lo)
    case 0x1 => SboxRow1(lo)
    case 0x2 => SboxRow2(lo)
    case 0x3 => SboxRow3(lo)
    case 0x4 => SboxRow4(lo)
    case 0x5 => SboxRow5(lo)
    case 0x6 => SboxRow6(lo)
    case 0x7 => SboxRow7(lo)
    case 0x8 => SboxRow8(lo)
    case 0x9 => SboxRow9(lo)
    case 0xA => SboxRowA(lo)
    case 0xB => SboxRowB(lo)
    case 0xC => SboxRowC(lo)
    case 0xD => SboxRowD(lo)
    case 0xE => SboxRowE(lo)
    case _ => SboxRowF(lo)
  }

  /// Row 0 of the substitution box.
  function SboxRow0(lo: bv8): bv8 {
    match lo
    case 0x0 => 0xD6
    case 0x1 => 0x90
    case 0x2 => 0xE9
    case 0x3 => 0xFE
    case 0x4 => 0xCC
    case 0x5 => 0xE1
    case 0x6 => 0x3D
    case 0x7 => 0xB7
    case 0x8 => 0x16
    case 0x9 => 0xB6
    case 0xA => 0x14
    case 0xB => 0xC2
    case 0xC => 0x28
    case 0xD => 0xFB
    case 0xE => 0x2C
    case _ => 0x05
  }

  /// Row 1 of the substitution box.
  function SboxRow1(lo: bv8): bv8 {
    match lo
    case 0x0 => 0x2B
    case 0x1 => 0x67
    case 0x2 => 0x9A
    case 0x3 => 0x76
    case 0x4 => 0x2A
    case 0x5 => 0xBE
    case 0x6 => 0x04
    case 0x7 => 0xC3
    case 0x8 => 0xAA
    case 0x9 => 0x44
    case 0xA => 0x13
    case 0xB => 0x26
    case 0xC => 0x49
    case 0xD => 0x86
    case 0xE => 0x06
    case _ => 0x99
  }

  /// Row 2 of the substitution box.
  function SboxRow2(lo: bv8): bv8 {
    match lo
    case 0x0 => 0x9C
    case 0x1 => 0x42
    case 0x2 => 0x50
    case 0x3 => 0xF4
    case 0x4 => 0x91
    case 0x5 => 0xEF
    case 0x6 => 0x98
    case 0x7 => 0x7A
    case 0x8 => 0x33
    case 0x9 => 0x54
    case 0xA => 0x0B
    case 0xB => 0x43
    case 0xC => 0xED
    case 0xD => 0xCF
    case 0xE => 0xAC
    case _ => 0x62
  }

  /// Row 3 of the substitution box.
  function SboxRow3(lo: bv8): bv8 {
    match lo
    case 0x0 => 0xE4
    case 0x1 => 0xB3
    case 0x2 => 0x1C
    case 0x3 => 0xA9
    case 0x4 => 0xC9
    case 0x5 => 0x08
    case 0x6 => 0xE8
    case 0x7 => 0x95
    case 0x8 => 0x80
    case 0x9 => 0xDF
    case 0xA => 0x94
    case 0xB => 0xFA
    case 0xC => 0x75
    case 0xD => 0x8F
    case 0xE => 0x3F
    case _ => 0xA6
  }

  /// Row 4 of the substitution box.
  function SboxRow4(lo: bv8): bv8 {
    match lo
    case 0x0 => 0x47
    case 0x1 => 0x07
    case 0x2 => 0xA7
    case 0x3 => 0xFC
    case 0x4 => 0xF3
    case 0x5 => 0x73
    case 0x6 => 0x17
    case 0x7 => 0xBA
    case 0x8 => 0x83
    case 0x9 => 0x59
    case 0xA => 0x3C
    case 0xB => 0x19
    case 0xC => 0xE6
    case 0xD => 0x85
    case 0xE => 0x4F
    case _ => 0xA8
  }

  /// Row 5 of the substitution box.
  function SboxRow5(lo: bv8): bv8 {
    match lo
    case 0x0 => 0x68
    case 0x1 => 0x6B
    case 0x2 => 0x81
    case 0x3 => 0xB2
    case 0x4 => 0x71
    case 0x5 => 0x64
    case 0x6 => 0xDA
    case 0x7 => 0x8B
    case 0x8 => 0xF8
    case 0x9 => 0xEB
    case 0xA => 0x0F
    case 0xB => 0x4B
    case 0xC => 0x70
    case 0xD => 0x56
    case 0xE => 0x9D
    case _ => 0x35
  }

  /// Row 6 of the substitution box.
  function SboxRow6(lo: bv8): bv8 {
    match lo
    case 0x0 => 0x1E
    case 0x1 => 0x24
    case 0x2 => 0x0E
    case 0x3 => 0x5E
    case 0x4 => 0x63
    case 0x5 => 0x58
    case 0x6 => 0xD1
    case 0x7 => 0xA2
    case 0x8 => 0x25
    case 0x9 => 0x22
    case 0xA => 0x7C
    case 0xB => 0x3B
    case 0xC => 0x01
    case 0xD => 0x21
    case 0xE => 0x78
    case _ => 0x87
  }

  /// Row 7 of the substitution box.
  function SboxRow7(lo: bv8): bv8 {
    match lo
    case 0x0 => 0xD4
    case 0x1 => 0x00
    case 0x2 => 0x46
    case 0x3 => 0x57
    case 0x4 => 0x9F
    case 0x5 => 0xD3
    case 0x6 => 0x27
    case 0x7 => 0x52
    case 0x8 => 0x4C
    case 0x9 => 0x36
    case 0xA => 0x02
    case 0xB => 0xE7
    case 0xC => 0xA0
    case 0xD => 0xC4
    case 0xE => 0xC8
    case _ => 0x9E
  }

  /// Row 8 of the substitution box.
  function SboxRow8(lo: bv8): bv8 {
    match lo
    case 0x0 => 0xEA
    case 0x1 => 0xBF
    case 0x2 => 0x8A
    case 0x3 => 0xD2
    case 0x4 => 0x40
    case 0x5 => 0xC7
    case 0x6 => 0x38
    case 0x7 => 0xB5
    case 0x8 => 0xA3
    case 0x9 => 0xF7
    case 0xA => 0xF2
    case 0xB => 0xCE
    case 0xC => 0xF9
    case 0xD => 0x61
    case 0xE => 0x15
    case _ => 0xA1
  }

  /// Row 9 of the substitution box.
  function SboxRow9(lo: bv8): bv8 {
    match lo
    case 0x0 => 0xE0
    case 0x1 => 0xAE
    case 0x2 => 0x5D
    case 0x3 => 0xA4
    case 0x4 => 0x9B
    case 0x5 => 0x34
    case 0x6 => 0x1A
    case 0x7 => 0x55
    case 0x8 => 0xAD
    case 0x9 => 0x93
    case 0xA => 0x32
    case 0xB => 0x30
    case 0xC => 0xF5
    case 0xD => 0x8C
    case 0xE => 0xB1
    case _ => 0xE3
  }

  /// Row A of the substitution box.
  function SboxRowA(lo: bv8): bv8 {
    match lo
    case 0x0 => 0x1D
    case 0x1 => 0xF6
    case 0x2 => 0xE2
    case 0x3 => 0x2E
    case 0x4 => 0x82
    case 0x5 => 0x66
    case 0x6 => 0xCA
    case 0x7 => 0x60
    case 0x8 => 0xC0
    case 0x9 => 0x29
    case 0xA => 0x23
    case 0xB => 0xAB
    case 0xC => 0x0D
    case 0xD => 0x53
    case 0xE => 0x4E
    case _ => 0x6F
  }

  /// Row B of the substitution box.
  function SboxRowB(lo: bv8): bv8 {
    match lo
    case 0x0 => 0xD5
    case 0x1 => 0xDB
    case 0x2 => 0x37
    case 0x3 => 0x45
    case 0x4 => 0xDE
    case 0x5 => 0xFD
    case 0x6 => 0x8E
    case 0x7 => 0x2F
    case 0x8 => 0x03
    case 0x9 => 0xFF
    case 0xA => 0x6A
    case 0xB => 0x72
    case 0xC => 0x6D
    case 0xD => 0x6C
    case 0xE => 0x5B
    case _ => 0x51
  }

  /// Row C of the substitution box.
  function SboxRowC(lo: bv8): bv8 {
    match lo
    case 0x0 => 0x8D
    case 0x1 => 0x1B
    case 0x2 => 0xAF
    case 0x3 => 0x92
    case 0x4 => 0xBB
    case 0x5 => 0xDD
    case 0x6 => 0xBC
    case 0x7 => 0x7F
    case 0x8 => 0x11
    case 0x9 => 0xD9
    case 0xA => 0x5C
    case 0xB => 0x41
    case 0xC => 0x1F
    case 0xD => 0x10
    case 0xE => 0x5A
    case _ => 0xD8
  }

  /// Row D of the substitution box.
  function SboxRowD(lo: bv8): bv8 {
    match lo
    case 0x0 => 0x0A
    case 0x1 => 0xC1
    case 0x2 => 0x31
    case 0x3 => 0x88
    case 0x4 => 0xA5
    case 0x5 => 0xCD
    case 0x6 => 0x7B
    case 0x7 => 0xBD
    case 0x8 => 0x2D
    case 0x9 => 0x74
    case 0xA => 0xD0
    case 0xB => 0x12
    case 0xC => 0xB8
    case 0xD => 0xE5
    case 0xE => 0xB4
    case _ => 0xB0
  }

  /// Row E of the substitution box.
  function SboxRowE(lo: bv8): bv8 {
    match lo
    case 0x0 => 0x89
    case 0x1 => 0x69
    case 0x2 => 0x97
    case 0x3 => 0x4A
    case 0x4 => 0x0C
    case 0x5 => 0x96
    case 0x6 => 0x77
    case 0x7 => 0x7E
    case 0x8 => 0x65
    case 0x9 => 0xB9
    case 0xA => 0xF1
    case 0xB => 0x09
    case 0xC => 0xC5
    case 0xD => 0x6E
    case 0xE => 0xC6
    case _ => 0x84
  }

  /// Row F of the substitution box.
  function SboxRowF(lo: bv8): bv8 {
    match lo
    case 0x0 => 0x18
    case 0x1 => 0xF0
    case 0x2 => 0x7D
    case 0x3 => 0xEC
    case 0x4 => 0x3A
    case 0x5 => 0xDC
    case 0x6 => 0x4D
    case 0x7 => 0x20
    case 0x8 => 0x79
    case 0x9 => 0xEE
    case 0xA => 0x5F
    case 0xB => 0x3E
    case 0xC => 0xD7
    case 0xD => 0xCB
    case 0xE => 0x39
    case _ => 0x48
  }

  /// The system parameter FK, XORed into the key words before expansion.
  const FK: seq<bv32> := [0xA3B1BAC6, 0x56AA3350, 0x677D9197, 0xB27022DC]

  /// The 32 fixed parameters CK, one per key-schedule sub-step.
  const CK: seq<bv32> := [
    0x00070E15, 0x1C232A31, 0x383F464D, 0x545B6269,
    0x70777E85, 0x8C939AA1, 0xA8AFB6BD, 0xC4CBD2D9,
    0xE0E7EEF5, 0xFC030A11, 0x181F262D, 0x343B4249,
    0x50575E65, 0x6C737A81, 0x888F969D, 0xA4ABB2B9,
    0xC0C7CED5, 0xDCE3EAF1, 0xF8FF060D, 0x141B2229,
    0x30373E45, 0x4C535A61, 0x686F767D, 0x848B9299,
    0xA0A7AEB5, 0xBCC3CAD1, 0xD8DFE6ED, 0xF4FB0209,
    0x10171E25, 0x2C333A41, 0x484F565D, 0x646B7279
  ]
}
