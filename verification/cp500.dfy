/** The single-byte codec Python calls 'cp500' (EBCDIC International, code page 500), through
    which every field of every record is decoded. Each of the 256 byte values stands for exactly
    one character, and those characters are exactly U+0000..U+00FF, so decoding never fails and
    can be undone. */
module Cp500 {
  import opened PyStr

  type Bytes = seq<bv8>

  /** The code point of the character that byte `b` stands for, as Python's 'cp500' table
      lists it. The 16 rows of 16 entries are laid out as a balanced decision tree over the
      byte value, with one comment line per row, so that the verifier can evaluate it. */
  function CodePoint(b: bv8): int {
    if b < 0x80 then
      if b < 0x40 then
        if b < 0x20 then
          if b < 0x10 then
            // bytes 0x00..0x0F: U+00 U+01 U+02 U+03 U+9C U+09 U+86 U+7F U+97 U+8D U+8E U+0B U+0C U+0D U+0E U+0F
            if b < 0x08 then
              if b < 0x04 then (if b < 0x02 then (if b < 0x01 then 0x00 else 0x01) else (if b < 0x03 then 0x02 else 0x03)) else (if b < 0x06 then (if b < 0x05 then 0x9C else 0x09) else (if b < 0x07 then 0x86 else 0x7F))
            else
              if b < 0x0C then (if b < 0x0A then (if b < 0x09 then 0x97 else 0x8D) else (if b < 0x0B then 0x8E else 0x0B)) else (if b < 0x0E then (if b < 0x0D then 0x0C else 0x0D) else (if b < 0x0F then 0x0E else 0x0F))
          else
            // bytes 0x10..0x1F: U+10 U+11 U+12 U+13 U+9D U+85 U+08 U+87 U+18 U+19 U+92 U+8F U+1C U+1D U+1E U+1F
            if b < 0x18 then
              if b < 0x14 then (if b < 0x12 then (if b < 0x11 then 0x10 else 0x11) else (if b < 0x13 then 0x12 else 0x13)) else (if b < 0x16 then (if b < 0x15 then 0x9D else 0x85) else (if b < 0x17 then 0x08 else 0x87))
            else
              if b < 0x1C then (if b < 0x1A then (if b < 0x19 then 0x18 else 0x19) else (if b < 0x1B then 0x92 else 0x8F)) else (if b < 0x1E then (if b < 0x1D then 0x1C else 0x1D) else (if b < 0x1F then 0x1E else 0x1F))
        else
          if b < 0x30 then
            // bytes 0x20..0x2F: U+80 U+81 U+82 U+83 U+84 U+0A U+17 U+1B U+88 U+89 U+8A U+8B U+8C U+05 U+06 U+07
            if b < 0x28 then
              if b < 0x24 then (if b < 0x22 then (if b < 0x21 then 0x80 else 0x81) else (if b < 0x23 then 0x82 else 0x83)) else (if b < 0x26 then (if b < 0x25 then 0x84 else 0x0A) else (if b < 0x27 then 0x17 else 0x1B))
            else
              if b < 0x2C then (if b < 0x2A then (if b < 0x29 then 0x88 else 0x89) else (if b < 0x2B then 0x8A else 0x8B)) else (if b < 0x2E then (if b < 0x2D then 0x8C else 0x05) else (if b < 0x2F then 0x06 else 0x07))
          else
            // bytes 0x30..0x3F: U+90 U+91 U+16 U+93 U+94 U+95 U+96 U+04 U+98 U+99 U+9A U+9B U+14 U+15 U+9E U+1A
            if b < 0x38 then
              if b < 0x34 then (if b < 0x32 then (if b < 0x31 then 0x90 else 0x91) else (if b < 0x33 then 0x16 else 0x93)) else (if b < 0x36 then (if b < 0x35 then 0x94 else 0x95) else (if b < 0x37 then 0x96 else 0x04))
            else
              if b < 0x3C then (if b < 0x3A then (if b < 0x39 then 0x98 else 0x99) else (if b < 0x3B then 0x9A else 0x9B)) else (if b < 0x3E then (if b < 0x3D then 0x14 else 0x15) else (if b < 0x3F then 0x9E else 0x1A))
      else
        if b < 0x60 then
          if b < 0x50 then
            // bytes 0x40..0x4F: SP U+A0 U+E2 U+E4 U+E0 U+E1 U+E3 U+E5 U+E7 U+F1 [ . < ( + !
            if b < 0x48 then
              if b < 0x44 then (if b < 0x42 then (if b < 0x41 then 0x20 else 0xA0) else (if b < 0x43 then 0xE2 else 0xE4)) else (if b < 0x46 then (if b < 0x45 then 0xE0 else 0xE1) else (if b < 0x47 then 0xE3 else 0xE5))
            else
              if b < 0x4C then (if b < 0x4A then (if b < 0x49 then 0xE7 else 0xF1) else (if b < 0x4B then 0x5B else 0x2E)) else (if b < 0x4E then (if b < 0x4D then 0x3C else 0x28) else (if b < 0x4F then 0x2B else 0x21))
          else
            // bytes 0x50..0x5F: & U+E9 U+EA U+EB U+E8 U+ED U+EE U+EF U+EC U+DF ] $ * ) ; ^
            if b < 0x58 then
              if b < 0x54 then (if b < 0x52 then (if b < 0x51 then 0x26 else 0xE9) else (if b < 0x53 then 0xEA else 0xEB)) else (if b < 0x56 then (if b < 0x55 then 0xE8 else 0xED) else (if b < 0x57 then 0xEE else 0xEF))
            else
              if b < 0x5C then (if b < 0x5A then (if b < 0x59 then 0xEC else 0xDF) else (if b < 0x5B then 0x5D else 0x24)) else (if b < 0x5E then (if b < 0x5D then 0x2A else 0x29) else (if b < 0x5F then 0x3B else 0x5E))
        else
          if b < 0x70 then
            // bytes 0x60..0x6F: - / U+C2 U+C4 U+C0 U+C1 U+C3 U+C5 U+C7 U+D1 U+A6 , % _ > ?
            if b < 0x68 then
              if b < 0x64 then (if b < 0x62 then (if b < 0x61 then 0x2D else 0x2F) else (if b < 0x63 then 0xC2 else 0xC4)) else (if b < 0x66 then (if b < 0x65 then 0xC0 else 0xC1) else (if b < 0x67 then 0xC3 else 0xC5))
            else
              if b < 0x6C then (if b < 0x6A then (if b < 0x69 then 0xC7 else 0xD1) else (if b < 0x6B then 0xA6 else 0x2C)) else (if b < 0x6E then (if b < 0x6D then 0x25 else 0x5F) else (if b < 0x6F then 0x3E else 0x3F))
          else
            // bytes 0x70..0x7F: U+F8 U+C9 U+CA U+CB U+C8 U+CD U+CE U+CF U+CC ` : # @ ' = "
            if b < 0x78 then
              if b < 0x74 then (if b < 0x72 then (if b < 0x71 then 0xF8 else 0xC9) else (if b < 0x73 then 0xCA else 0xCB)) else (if b < 0x76 then (if b < 0x75 then 0xC8 else 0xCD) else (if b < 0x77 then 0xCE else 0xCF))
            else
              if b < 0x7C then (if b < 0x7A then (if b < 0x79 then 0xCC else 0x60) else (if b < 0x7B then 0x3A else 0x23)) else (if b < 0x7E then (if b < 0x7D then 0x40 else 0x27) else (if b < 0x7F then 0x3D else 0x22))
    else
      if b < 0xC0 then
        if b < 0xA0 then
          if b < 0x90 then
            // bytes 0x80..0x8F: U+D8 a b c d e f g h i U+AB U+BB U+F0 U+FD U+FE U+B1
            if b < 0x88 then
              if b < 0x84 then (if b < 0x82 then (if b < 0x81 then 0xD8 else 0x61) else (if b < 0x83 then 0x62 else 0x63)) else (if b < 0x86 then (if b < 0x85 then 0x64 else 0x65) else (if b < 0x87 then 0x66 else 0x67))
            else
              if b < 0x8C then (if b < 0x8A then (if b < 0x89 then 0x68 else 0x69) else (if b < 0x8B then 0xAB else 0xBB)) else (if b < 0x8E then (if b < 0x8D then 0xF0 else 0xFD) else (if b < 0x8F then 0xFE else 0xB1))
          else
            // bytes 0x90..0x9F: U+B0 j k l m n o p q r U+AA U+BA U+E6 U+B8 U+C6 U+A4
            if b < 0x98 then
              if b < 0x94 then (if b < 0x92 then (if b < 0x91 then 0xB0 else 0x6A) else (if b < 0x93 then 0x6B else 0x6C)) else (if b < 0x96 then (if b < 0x95 then 0x6D else 0x6E) else (if b < 0x97 then 0x6F else 0x70))
            else
              if b < 0x9C then (if b < 0x9A then (if b < 0x99 then 0x71 else 0x72) else (if b < 0x9B then 0xAA else 0xBA)) else (if b < 0x9E then (if b < 0x9D then 0xE6 else 0xB8) else (if b < 0x9F then 0xC6 else 0xA4))
        else
          if b < 0xB0 then
            // bytes 0xA0..0xAF: U+B5 ~ s t u v w x y z U+A1 U+BF U+D0 U+DD U+DE U+AE
            if b < 0xA8 then
              if b < 0xA4 then (if b < 0xA2 then (if b < 0xA1 then 0xB5 else 0x7E) else (if b < 0xA3 then 0x73 else 0x74)) else (if b < 0xA6 then (if b < 0xA5 then 0x75 else 0x76) else (if b < 0xA7 then 0x77 else 0x78))
            else
              if b < 0xAC then (if b < 0xAA then (if b < 0xA9 then 0x79 else 0x7A) else (if b < 0xAB then 0xA1 else 0xBF)) else (if b < 0xAE then (if b < 0xAD then 0xD0 else 0xDD) else (if b < 0xAF then 0xDE else 0xAE))
          else
            // bytes 0xB0..0xBF: U+A2 U+A3 U+A5 U+B7 U+A9 U+A7 U+B6 U+BC U+BD U+BE U+AC | U+AF U+A8 U+B4 U+D7
            if b < 0xB8 then
              if b < 0xB4 then (if b < 0xB2 then (if b < 0xB1 then 0xA2 else 0xA3) else (if b < 0xB3 then 0xA5 else 0xB7)) else (if b < 0xB6 then (if b < 0xB5 then 0xA9 else 0xA7) else (if b < 0xB7 then 0xB6 else 0xBC))
            else
              if b < 0xBC then (if b < 0xBA then (if b < 0xB9 then 0xBD else 0xBE) else (if b < 0xBB then 0xAC else 0x7C)) else (if b < 0xBE then (if b < 0xBD then 0xAF else 0xA8) else (if b < 0xBF then 0xB4 else 0xD7))
      else
        if b < 0xE0 then
          if b < 0xD0 then
            // bytes 0xC0..0xCF: { A B C D E F G H I U+AD U+F4 U+F6 U+F2 U+F3 U+F5
            if b < 0xC8 then
              if b < 0xC4 then (if b < 0xC2 then (if b < 0xC1 then 0x7B else 0x41) else (if b < 0xC3 then 0x42 else 0x43)) else (if b < 0xC6 then (if b < 0xC5 then 0x44 else 0x45) else (if b < 0xC7 then 0x46 else 0x47))
            else
              if b < 0xCC then (if b < 0xCA then (if b < 0xC9 then 0x48 else 0x49) else (if b < 0xCB then 0xAD else 0xF4)) else (if b < 0xCE then (if b < 0xCD then 0xF6 else 0xF2) else (if b < 0xCF then 0xF3 else 0xF5))
          else
            // bytes 0xD0..0xDF: } J K L M N O P Q R U+B9 U+FB U+FC U+F9 U+FA U+FF
            if b < 0xD8 then
              if b < 0xD4 then (if b < 0xD2 then (if b < 0xD1 then 0x7D else 0x4A) else (if b < 0xD3 then 0x4B else 0x4C)) else (if b < 0xD6 then (if b < 0xD5 then 0x4D else 0x4E) else (if b < 0xD7 then 0x4F else 0x50))
            else
              if b < 0xDC then (if b < 0xDA then (if b < 0xD9 then 0x51 else 0x52) else (if b < 0xDB then 0xB9 else 0xFB)) else (if b < 0xDE then (if b < 0xDD then 0xFC else 0xF9) else (if b < 0xDF then 0xFA else 0xFF))
        else
          if b < 0xF0 then
            // bytes 0xE0..0xEF: \ U+F7 S T U V W X Y Z U+B2 U+D4 U+D6 U+D2 U+D3 U+D5
            if b < 0xE8 then
              if b < 0xE4 then (if b < 0xE2 then (if b < 0xE1 then 0x5C else 0xF7) else (if b < 0xE3 then 0x53 else 0x54)) else (if b < 0xE6 then (if b < 0xE5 then 0x55 else 0x56) else (if b < 0xE7 then 0x57 else 0x58))
            else
              if b < 0xEC then (if b < 0xEA then (if b < 0xE9 then 0x59 else 0x5A) else (if b < 0xEB then 0xB2 else 0xD4)) else (if b < 0xEE then (if b < 0xED then 0xD6 else 0xD2) else (if b < 0xEF then 0xD3 else 0xD5))
          else
            // bytes 0xF0..0xFF: 0 1 2 3 4 5 6 7 8 9 U+B3 U+DB U+DC U+D9 U+DA U+9F
            if b < 0xF8 then
              if b < 0xF4 then (if b < 0xF2 then (if b < 0xF1 then 0x30 else 0x31) else (if b < 0xF3 then 0x32 else 0x33)) else (if b < 0xF6 then (if b < 0xF5 then 0x34 else 0x35) else (if b < 0xF7 then 0x36 else 0x37))
            else
              if b < 0xFC then (if b < 0xFA then (if b < 0xF9 then 0x38 else 0x39) else (if b < 0xFB then 0xB3 else 0xDB)) else (if b < 0xFE then (if b < 0xFD then 0xDC else 0xD9) else (if b < 0xFF then 0xDA else 0x9F))
  }

  /** The inverse table: the byte that stands for code point `c`. */
  function ByteOf(c: int): bv8
    requires 0 <= c < 256
  {
    if c < 0x80 then
      if c < 0x40 then
        if c < 0x20 then
          if c < 0x10 then
            // code points 0x00..0x0F: U+00 U+01 U+02 U+03 U+04 U+05 U+06 U+07 U+08 U+09 U+0A U+0B U+0C U+0D U+0E U+0F
            if c < 0x08 then
              if c < 0x04 then (if c < 0x02 then (if c < 0x01 then 0x00 else 0x01) else (if c < 0x03 then 0x02 else 0x03)) else (if c < 0x06 then (if c < 0x05 then 0x37 else 0x2D) else (if c < 0x07 then 0x2E else 0x2F))
            else
              if c < 0x0C then (if c < 0x0A then (if c < 0x09 then 0x16 else 0x05) else (if c < 0x0B then 0x25 else 0x0B)) else (if c < 0x0E then (if c < 0x0D then 0x0C else 0x0D) else (if c < 0x0F then 0x0E else 0x0F))
          else
            // code points 0x10..0x1F: U+10 U+11 U+12 U+13 U+14 U+15 U+16 U+17 U+18 U+19 U+1A U+1B U+1C U+1D U+1E U+1F
            if c < 0x18 then
              if c < 0x14 then (if c < 0x12 then (if c < 0x11 then 0x10 else 0x11) else (if c < 0x13 then 0x12 else 0x13)) else (if c < 0x16 then (if c < 0x15 then 0x3C else 0x3D) else (if c < 0x17 then 0x32 else 0x26))
            else
              if c < 0x1C then (if c < 0x1A then (if c < 0x19 then 0x18 else 0x19) else (if c < 0x1B then 0x3F else 0x27)) else (if c < 0x1E then (if c < 0x1D then 0x1C else 0x1D) else (if c < 0x1F then 0x1E else 0x1F))
        else
          if c < 0x30 then
            // code points 0x20..0x2F: SP ! " # $ % & ' ( ) * + , - . /
            if c < 0x28 then
              if c < 0x24 then (if c < 0x22 then (if c < 0x21 then 0x40 else 0x4F) else (if c < 0x23 then 0x7F else 0x7B)) else (if c < 0x26 then (if c < 0x25 then 0x5B else 0x6C) else (if c < 0x27 then 0x50 else 0x7D))
            else
              if c < 0x2C then (if c < 0x2A then (if c < 0x29 then 0x4D else 0x5D) else (if c < 0x2B then 0x5C else 0x4E)) else (if c < 0x2E then (if c < 0x2D then 0x6B else 0x60) else (if c < 0x2F then 0x4B else 0x61))
          else
            // code points 0x30..0x3F: 0 1 2 3 4 5 6 7 8 9 : ; < = > ?
            if c < 0x38 then
              if c < 0x34 then (if c < 0x32 then (if c < 0x31 then 0xF0 else 0xF1) else (if c < 0x33 then 0xF2 else 0xF3)) else (if c < 0x36 then (if c < 0x35 then 0xF4 else 0xF5) else (if c < 0x37 then 0xF6 else 0xF7))
            else
              if c < 0x3C then (if c < 0x3A then (if c < 0x39 then 0xF8 else 0xF9) else (if c < 0x3B then 0x7A else 0x5E)) else (if c < 0x3E then (if c < 0x3D then 0x4C else 0x7E) else (if c < 0x3F then 0x6E else 0x6F))
      else
        if c < 0x60 then
          if c < 0x50 then
            // code points 0x40..0x4F: @ A B C D E F G H I J K L M N O
            if c < 0x48 then
              if c < 0x44 then (if c < 0x42 then (if c < 0x41 then 0x7C else 0xC1) else (if c < 0x43 then 0xC2 else 0xC3)) else (if c < 0x46 then (if c < 0x45 then 0xC4 else 0xC5) else (if c < 0x47 then 0xC6 else 0xC7))
            else
              if c < 0x4C then (if c < 0x4A then (if c < 0x49 then 0xC8 else 0xC9) else (if c < 0x4B then 0xD1 else 0xD2)) else (if c < 0x4E then (if c < 0x4D then 0xD3 else 0xD4) else (if c < 0x4F then 0xD5 else 0xD6))
          else
            // code points 0x50..0x5F: P Q R S T U V W X Y Z [ \ ] ^ _
            if c < 0x58 then
              if c < 0x54 then (if c < 0x52 then (if c < 0x51 then 0xD7 else 0xD8) else (if c < 0x53 then 0xD9 else 0xE2)) else (if c < 0x56 then (if c < 0x55 then 0xE3 else 0xE4) else (if c < 0x57 then 0xE5 else 0xE6))
            else
              if c < 0x5C then (if c < 0x5A then (if c < 0x59 then 0xE7 else 0xE8) else (if c < 0x5B then 0xE9 else 0x4A)) else (if c < 0x5E then (if c < 0x5D then 0xE0 else 0x5A) else (if c < 0x5F then 0x5F else 0x6D))
        else
          if c < 0x70 then
            // code points 0x60..0x6F: ` a b c d e f g h i j k l m n o
            if c < 0x68 then
              if c < 0x64 then (if c < 0x62 then (if c < 0x61 then 0x79 else 0x81) else (if c < 0x63 then 0x82 else 0x83)) else (if c < 0x66 then (if c < 0x65 then 0x84 else 0x85) else (if c < 0x67 then 0x86 else 0x87))
            else
              if c < 0x6C then (if c < 0x6A then (if c < 0x69 then 0x88 else 0x89) else (if c < 0x6B then 0x91 else 0x92)) else (if c < 0x6E then (if c < 0x6D then 0x93 else 0x94) else (if c < 0x6F then 0x95 else 0x96))
          else
            // code points 0x70..0x7F: p q r s t u v w x y z { | } ~ U+7F
            if c < 0x78 then
              if c < 0x74 then (if c < 0x72 then (if c < 0x71 then 0x97 else 0x98) else (if c < 0x73 then 0x99 else 0xA2)) else (if c < 0x76 then (if c < 0x75 then 0xA3 else 0xA4) else (if c < 0x77 then 0xA5 else 0xA6))
            else
              if c < 0x7C then (if c < 0x7A then (if c < 0x79 then 0xA7 else 0xA8) else (if c < 0x7B then 0xA9 else 0xC0)) else (if c < 0x7E then (if c < 0x7D then 0xBB else 0xD0) else (if c < 0x7F then 0xA1 else 0x07))
    else
      if c < 0xC0 then
        if c < 0xA0 then
          if c < 0x90 then
            // code points 0x80..0x8F: U+80 U+81 U+82 U+83 U+84 U+85 U+86 U+87 U+88 U+89 U+8A U+8B U+8C U+8D U+8E U+8F
            if c < 0x88 then
              if c < 0x84 then (if c < 0x82 then (if c < 0x81 then 0x20 else 0x21) else (if c < 0x83 then 0x22 else 0x23)) else (if c < 0x86 then (if c < 0x85 then 0x24 else 0x15) else (if c < 0x87 then 0x06 else 0x17))
            else
              if c < 0x8C then (if c < 0x8A then (if c < 0x89 then 0x28 else 0x29) else (if c < 0x8B then 0x2A else 0x2B)) else (if c < 0x8E then (if c < 0x8D then 0x2C else 0x09) else (if c < 0x8F then 0x0A else 0x1B))
          else
            // code points 0x90..0x9F: U+90 U+91 U+92 U+93 U+94 U+95 U+96 U+97 U+98 U+99 U+9A U+9B U+9C U+9D U+9E U+9F
            if c < 0x98 then
              if c < 0x94 then (if c < 0x92 then (if c < 0x91 then 0x30 else 0x31) else (if c < 0x93 then 0x1A else 0x33)) else (if c < 0x96 then (if c < 0x95 then 0x34 else 0x35) else (if c < 0x97 then 0x36 else 0x08))
            else
              if c < 0x9C then (if c < 0x9A then (if c < 0x99 then 0x38 else 0x39) else (if c < 0x9B then 0x3A else 0x3B)) else (if c < 0x9E then (if c < 0x9D then 0x04 else 0x14) else (if c < 0x9F then 0x3E else 0xFF))
        else
          if c < 0xB0 then
            // code points 0xA0..0xAF: U+A0 U+A1 U+A2 U+A3 U+A4 U+A5 U+A6 U+A7 U+A8 U+A9 U+AA U+AB U+AC U+AD U+AE U+AF
            if c < 0xA8 then
              if c < 0xA4 then (if c < 0xA2 then (if c < 0xA1 then 0x41 else 0xAA) else (if c < 0xA3 then 0xB0 else 0xB1)) else (if c < 0xA6 then (if c < 0xA5 then 0x9F else 0xB2) else (if c < 0xA7 then 0x6A else 0xB5))
            else
              if c < 0xAC then (if c < 0xAA then (if c < 0xA9 then 0xBD else 0xB4) else (if c < 0xAB then 0x9A else 0x8A)) else (if c < 0xAE then (if c < 0xAD then 0xBA else 0xCA) else (if c < 0xAF then 0xAF else 0xBC))
          else
            // code points 0xB0..0xBF: U+B0 U+B1 U+B2 U+B3 U+B4 U+B5 U+B6 U+B7 U+B8 U+B9 U+BA U+BB U+BC U+BD U+BE U+BF
            if c < 0xB8 then
              if c < 0xB4 then (if c < 0xB2 then (if c < 0xB1 then 0x90 else 0x8F) else (if c < 0xB3 then 0xEA else 0xFA)) else (if c < 0xB6 then (if c < 0xB5 then 0xBE else 0xA0) else (if c < 0xB7 then 0xB6 else 0xB3))
            else
              if c < 0xBC then (if c < 0xBA then (if c < 0xB9 then 0x9D else 0xDA) else (if c < 0xBB then 0x9B else 0x8B)) else (if c < 0xBE then (if c < 0xBD then 0xB7 else 0xB8) else (if c < 0xBF then 0xB9 else 0xAB))
      else
        if c < 0xE0 then
          if c < 0xD0 then
            // code points 0xC0..0xCF: U+C0 U+C1 U+C2 U+C3 U+C4 U+C5 U+C6 U+C7 U+C8 U+C9 U+CA U+CB U+CC U+CD U+CE U+CF
            if c < 0xC8 then
              if c < 0xC4 then (if c < 0xC2 then (if c < 0xC1 then 0x64 else 0x65) else (if c < 0xC3 then 0x62 else 0x66)) else (if c < 0xC6 then (if c < 0xC5 then 0x63 else 0x67) else (if c < 0xC7 then 0x9E else 0x68))
            else
              if c < 0xCC then (if c < 0xCA then (if c < 0xC9 then 0x74 else 0x71) else (if c < 0xCB then 0x72 else 0x73)) else (if c < 0xCE then (if c < 0xCD then 0x78 else 0x75) else (if c < 0xCF then 0x76 else 0x77))
          else
            // code points 0xD0..0xDF: U+D0 U+D1 U+D2 U+D3 U+D4 U+D5 U+D6 U+D7 U+D8 U+D9 U+DA U+DB U+DC U+DD U+DE U+DF
            if c < 0xD8 then
              if c < 0xD4 then (if c < 0xD2 then (if c < 0xD1 then 0xAC else 0x69) else (if c < 0xD3 then 0xED else 0xEE)) else (if c < 0xD6 then (if c < 0xD5 then 0xEB else 0xEF) else (if c < 0xD7 then 0xEC else 0xBF))
            else
              if c < 0xDC then (if c < 0xDA then (if c < 0xD9 then 0x80 else 0xFD) else (if c < 0xDB then 0xFE else 0xFB)) else (if c < 0xDE then (if c < 0xDD then 0xFC else 0xAD) else (if c < 0xDF then 0xAE else 0x59))
        else
          if c < 0xF0 then
            // code points 0xE0..0xEF: U+E0 U+E1 U+E2 U+E3 U+E4 U+E5 U+E6 U+E7 U+E8 U+E9 U+EA U+EB U+EC U+ED U+EE U+EF
            if c < 0xE8 then
              if c < 0xE4 then (if c < 0xE2 then (if c < 0xE1 then 0x44 else 0x45) else (if c < 0xE3 then 0x42 else 0x46)) else (if c < 0xE6 then (if c < 0xE5 then 0x43 else 0x47) else (if c < 0xE7 then 0x9C else 0x48))
            else
              if c < 0xEC then (if c < 0xEA then (if c < 0xE9 then 0x54 else 0x51) else (if c < 0xEB then 0x52 else 0x53)) else (if c < 0xEE then (if c < 0xED then 0x58 else 0x55) else (if c < 0xEF then 0x56 else 0x57))
          else
            // code points 0xF0..0xFF: U+F0 U+F1 U+F2 U+F3 U+F4 U+F5 U+F6 U+F7 U+F8 U+F9 U+FA U+FB U+FC U+FD U+FE U+FF
            if c < 0xF8 then
              if c < 0xF4 then (if c < 0xF2 then (if c < 0xF1 then 0x8C else 0x49) else (if c < 0xF3 then 0xCD else 0xCE)) else (if c < 0xF6 then (if c < 0xF5 then 0xCB else 0xCF) else (if c < 0xF7 then 0xCC else 0xE1))
            else
              if c < 0xFC then (if c < 0xFA then (if c < 0xF9 then 0x70 else 0xDD) else (if c < 0xFB then 0xDE else 0xDB)) else (if c < 0xFE then (if c < 0xFD then 0xDC else 0x8D) else (if c < 0xFF then 0x8E else 0xDF))
  }

  /** The character one byte decodes to. */
  function DecodeByte(b: bv8): (c: char)
    ensures (c as int) < 256
  {
    ByteOfCodePoint(b);
    CodePoint(b) as char
  }

  /** The byte a character of the code page encodes to. */
  function EncodeChar(c: char): bv8
    requires (c as int) < 256
  {
    ByteOf(c as int)
  }

  /** The inverse table undoes the table: no two bytes stand for the same character. */
  lemma ByteOfCodePoint(b: bv8)
    ensures 0 <= CodePoint(b) < 256 && ByteOf(CodePoint(b)) == b
  {
  }

  /** Encoding undoes decoding, byte by byte. */
  lemma EncodeDecodeByte(b: bv8)
    ensures EncodeChar(DecodeByte(b)) == b
  {
    ByteOfCodePoint(b);
  }

  /** `data.decode('cp500')`: one character per byte, in order. */
  function Decode(bs: Bytes): (s: string)
    ensures |s| == |bs|
    ensures forall i :: 0 <= i < |bs| ==> s[i] == DecodeByte(bs[i])
  {
    seq(|bs|, i requires 0 <= i < |bs| => DecodeByte(bs[i]))
  }

  predicate InCodePage(s: string) {
    forall i :: 0 <= i < |s| ==> (s[i] as int) < 256
  }

  /** `text.encode('cp500')` for text the code page can represent. */
  function Encode(s: string): (bs: Bytes)
    requires InCodePage(s)
    ensures |bs| == |s|
  {
    seq(|s|, i requires 0 <= i < |s| => EncodeChar(s[i]))
  }

  /** Decoding a byte string and encoding the text again gives back the bytes. */
  lemma RoundTrip(bs: Bytes)
    ensures InCodePage(Decode(bs))
    ensures Encode(Decode(bs)) == bs
  {
    forall i | 0 <= i < |bs|
      ensures Encode(Decode(bs))[i] == bs[i]
    {
      EncodeDecodeByte(bs[i]);
    }
  }

  /** Two byte strings with the same text are the same bytes. */
  lemma DecodeInjective(a: Bytes, b: Bytes)
    requires Decode(a) == Decode(b)
    ensures a == b
  {
    RoundTrip(a);
    RoundTrip(b);
  }

  /** Decoding commutes with slicing. */
  lemma DecodeSlice(bs: Bytes, i: nat, j: nat)
    requires i <= j
    ensures Decode(Slice(bs, i, j)) == Slice(Decode(bs), i, j)
  {
  }

  /** The digit characters are exactly the bytes 0xF0..0xF9, and a digit's value is the low
      nibble of its byte. */
  lemma DigitByte(b: bv8)
    ensures IsDigit(DecodeByte(b)) <==> 0xF0 <= b <= 0xF9
    ensures 0xF0 <= b <= 0xF9 ==> DigitValue(DecodeByte(b)) == (b & 0x0F) as int
  {
  }

  /** The bytes that decode to a character `str.strip()` removes. */
  lemma SpaceByte(b: bv8)
    ensures IsSpace(DecodeByte(b)) <==>
              b == 0x05 || b == 0x0B || b == 0x0C || b == 0x0D || b == 0x15 || (0x1C <= b <= 0x1F)
              || b == 0x25 || b == 0x40 || b == 0x41
  {
  }
}
