/** The loops that read an account address and compute its checksum. */
module AddressCode {
  import opened Bits
  import opened Crc16
  import opened CrcResidue
  import opened StrKey
  import opened AddressForm

  method Crc16Xmodem(bytes: seq<byte>) returns (crc: u16)
    ensures crc == Crc(0, bytes) && Residue(bytes, crc)
  {
    ResidueIs(bytes, Crc(0, bytes));
    hide Residue;
    crc := 0;
    for i := 0 to |bytes|
      invariant Crc(crc, bytes[i..]) == Crc(0, bytes)
    {
      assert bytes[i..][1..] == bytes[i + 1..];
      crc := MixByte(crc, bytes[i]);
    }
  }

  /** The body of the loop over bytes: eight conditional shifts. */
  method MixByte(previous: u16, b: byte) returns (crc: u16)
    ensures crc == StepByte(previous, b)
    ensures exists q: nat :: Xor(Product(q, 0x1_1021), crc) == Xor(previous, 256 * b) * 256
  {
    ByteShifts(previous, b);
    hide Product;
    XorInRange(previous, High(b));
    crc := Xor(previous, High(b));
    ghost var mixed := crc;
    for bit := 0 to 8
      invariant crc == Steps(mixed, bit)
    {
      crc := StepBit(crc);
    }
  }

  lemma ByteShifts(previous: u16, b: byte)
    ensures exists q: nat :: Xor(Product(q, 0x1_1021), StepByte(previous, b)) == Xor(previous, 256 * b) * 256
  {
    Pow2Small();
    XorInRange(previous, High(b));
    var q := StepsResidue(Xor(previous, High(b)), 8);
    hide Xor, Product, Steps;
    assert Xor(Product(q, 0x1_1021), StepByte(previous, b)) == Xor(previous, 256 * b) * 256;
  }

  // ----- the decoder -----

  method DecodeStellarAccount(s: seq<byte>) returns (r: Result<seq<byte>>)
    ensures r == Decoded(s)
    ensures forall key :: r == Ok(key) <==> IsAddress(s, key)
  {
    forall key: seq<byte>
      ensures Decoded(s) == Ok(key) <==> IsAddress(s, key)
    {
      AcceptsExactlyAddresses(s, key);
    }
    hide IsAddress;
    if |s| != 56 {
      return Err(InvalidAccount);
    }
    var valid, decoded, accumulator, bits := Regroup(s);
    if !valid {
      return Err(InvalidAccount);
    }
    NothingLeft(s, decoded, accumulator, bits);
    if bits != 0 || |decoded| != 35 || decoded[0] != ACCOUNT_VERSION {
      return Err(InvalidAccount);
    }
    var crc := Crc16Xmodem(decoded[..33]);
    if crc != decoded[33] as int + 256 * decoded[34] as int {
      return Err(InvalidChecksum);
    }
    return Ok(decoded[1..33]);
  }

  /** The accumulator loop: five bits enter with every letter, and eight leave when there are enough. */
  method Regroup(s: seq<byte>) returns (valid: bool, decoded: seq<byte>, accumulator: nat, bits: nat)
    ensures valid == AllLetters(s)
    ensures valid ==> bits < 8 && Holds(s, |s|, decoded, accumulator, bits)
  {
    decoded, accumulator, bits := [], 0, 0;
    for i := 0 to |s|
      invariant LettersUpTo(s, i) && bits < 8
      invariant Holds(s, i, decoded, accumulator, bits)
    {
      if !IsLetter(s[i]) {
        return false, [], 0, 0;
      }
      LetterEnters(s, i, decoded, accumulator, bits);
      accumulator, bits := accumulator * 32 + LetterValue(s[i]), bits + 5;
      while bits >= 8
        invariant Holds(s, i + 1, decoded, accumulator, bits)
      {
        bits := bits - 8;
        ByteLeaves(s, i + 1, decoded, accumulator, bits);
        decoded, accumulator := decoded + [ShiftRight(accumulator, bits) % 256], LowBits(accumulator, bits);
      }
    }
    valid := true;
  }
}
