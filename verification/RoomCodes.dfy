/**
 Room codes (src/room_code.rs): four bytes from 'A' to 'Z', their conversions, the binary
 search for profanity over a flat table of five-byte records, and the count that shows a
 fresh code is always left.
 */
module RoomCodes {
  import opened Common

  type Bytes4 = b: seq<byte> | |b| == 4 witness [65, 65, 65, 65]

  datatype RoomCode = RoomCode(bytes: Bytes4)

  datatype RoomCodeError = InvalidCharacters | InvalidLength

  predicate IsLetter(b: byte) { 65 <= b <= 90 }

  predicate Valid(code: RoomCode) {
    forall i :: 0 <= i < 4 ==> IsLetter(code.bytes[i])
  }

  method ValidBytes(bytes: Bytes4) returns (valid: bool)
    ensures valid == Valid(RoomCode(bytes))
  {
    for i := 0 to 4
      invariant forall j :: 0 <= j < i ==> IsLetter(bytes[j])
    {
      if bytes[i] < 65 || bytes[i] > 90 {
        return false;
      }
    }
    return true;
  }

  // ----- big-endian integers -----

  function FromBigEndian(b: Bytes4): u32 {
    0x100_0000 * (b[0] as int) + 0x1_0000 * (b[1] as int) + 0x100 * (b[2] as int) + b[3]
  }

  function ToBigEndian(v: u32): Bytes4 {
    [v / 0x100_0000, v / 0x1_0000 % 0x100, v / 0x100 % 0x100, v % 0x100]
  }

  function ToU32(code: RoomCode): u32 {
    FromBigEndian(code.bytes)
  }

  function FromU32(v: u32): Result<RoomCode, RoomCodeError> {
    var code := RoomCode(ToBigEndian(v));
    if Valid(code) then Ok(code) else Err(InvalidCharacters)
  }

  /** One byte shifted in, and out again. */
  lemma ByteShift(n: nat, high: nat, low: byte)
    requires n == 0x100 * high + low
    ensures n / 0x100 == high && n % 0x100 == low
  {
  }

  /** Dividing by a power of 0x100 is dividing by 0x100 repeatedly. */
  lemma ShiftTwice(n: nat)
    ensures n / 0x1_0000 == n / 0x100 / 0x100 && n / 0x100_0000 == n / 0x100 / 0x100 / 0x100
  {
  }

  lemma BytesRecovered(b: Bytes4)
    ensures ToBigEndian(FromBigEndian(b)) == b
  {
    var n := FromBigEndian(b);
    var n1: nat := 0x100 * (b[0] as int) + b[1];
    var n2: nat := 0x100 * n1 + b[2];
    ByteShift(n, n2, b[3]);
    ByteShift(n2, n1, b[2]);
    ByteShift(n1, b[0], b[1]);
    ShiftTwice(n);
  }

  lemma NumberRecovered(v: u32)
    ensures FromBigEndian(ToBigEndian(v)) == v
  {
    ShiftTwice(v);
    var a, b, c := v / 0x100, v / 0x100 / 0x100, v / 0x100 / 0x100 / 0x100;
    assert v == 0x100 * a + v % 0x100;
    assert a == 0x100 * b + a % 0x100;
    assert b == 0x100 * c + b % 0x100;
  }

  lemma BigEndianRoundTrip(b: Bytes4, v: u32)
    ensures ToBigEndian(FromBigEndian(b)) == b
    ensures FromBigEndian(ToBigEndian(v)) == v
  {
    BytesRecovered(b);
    NumberRecovered(v);
  }

  /** The lobby's integer keys and the codes determine each other. */
  lemma KeyRoundTrip(code: RoomCode, v: u32)
    ensures Valid(code) ==> FromU32(ToU32(code)) == Ok(code)
    ensures FromU32(v) == Ok(code) <==> Valid(code) && ToU32(code) == v
  {
    BigEndianRoundTrip(code.bytes, v);
  }

  // ----- text -----

  function FromText(text: Text): Result<RoomCode, RoomCodeError> {
    if |text| != 4 then Err(InvalidLength)
    else if Valid(RoomCode(text)) then Ok(RoomCode(text))
    else Err(InvalidCharacters)
  }

  function ToText(code: RoomCode): Text {
    code.bytes
  }

  /** The conversion from `&str`, which copies the bytes into a fixed array first. */
  method TryFromText(text: Text) returns (r: Result<RoomCode, RoomCodeError>)
    ensures r == FromText(text)
  {
    if |text| != 4 {
      return Err(InvalidLength);
    }
    var fixed := new byte[4];
    for i := 0 to 4
      invariant forall j :: 0 <= j < i ==> fixed[j] == text[j]
    {
      fixed[i] := text[i];
    }
    assert fixed[..] == text;
    var valid := ValidBytes(fixed[..]);
    return if valid then Ok(RoomCode(fixed[..])) else Err(InvalidCharacters);
  }

  // ----- the profanity table -----

  function Records(table: seq<byte>): nat {
    |table| / 5
  }

  function RecordAt(table: seq<byte>, index: nat): Bytes4
    requires index < Records(table)
  {
    table[5 * index..5 * index + 4]
  }

  function Word(table: seq<byte>, index: nat): u32
    requires index < Records(table)
  {
    FromBigEndian(RecordAt(table, index))
  }

  /** A table of at least one five-byte record (four letters and a newline), in ascending order. */
  ghost predicate Table(table: seq<byte>) {
    && |table| >= 5
    && forall i, j :: 0 <= i < j < Records(table) ==> Word(table, i) <= Word(table, j)
  }

  ghost predicate Listed(table: seq<byte>, code: RoomCode) {
    exists i :: 0 <= i < Records(table) && RecordAt(table, i) == code.bytes
  }

  /** Byte-by-byte comparison decides the numeric order of the big-endian integers. */
  method CompareToProfanity(code: RoomCode, table: seq<byte>, index: nat) returns (cmp: int)
    requires index < Records(table)
    ensures cmp < 0 <==> ToU32(code) < Word(table, index)
    ensures cmp == 0 <==> code.bytes == RecordAt(table, index)
    ensures cmp > 0 <==> ToU32(code) > Word(table, index)
  {
    var profanity := RecordAt(table, index);
    for i := 0 to 4
      invariant forall j :: 0 <= j < i ==> code.bytes[j] == profanity[j]
    {
      if code.bytes[i] < profanity[i] {
        return -1;
      } else if code.bytes[i] > profanity[i] {
        return 1;
      }
    }
    assert code.bytes == profanity;
    return 0;
  }

  method IsProfanity(code: RoomCode, table: seq<byte>) returns (found: bool)
    requires Table(table)
    ensures found <==> Listed(table, code)
  {
    var left, right := 0, Records(table) - 1;
    while left <= right
      invariant 0 <= left <= right + 1 <= Records(table)
      invariant forall i :: 0 <= i < left ==> Word(table, i) < ToU32(code)
      invariant forall i :: right < i < Records(table) ==> Word(table, i) > ToU32(code)
    {
      var middle := (left + right) / 2;
      var cmp := CompareToProfanity(code, table, middle);
      if cmp < 0 {
        right := middle - 1;
      } else if cmp > 0 {
        left := middle + 1;
      } else {
        return true;
      }
    }
    forall i | 0 <= i < Records(table) ensures RecordAt(table, i) != code.bytes {
      assert Word(table, i) != ToU32(code);
    }
    return false;
  }

  /** The file the table is read from: a word on each line. */
  function Lines(words: seq<Bytes4>): seq<byte> {
    if words == [] then [] else words[0] + [10] + Lines(words[1..])
  }

  /** Alphabetical order. */
  predicate Before(a: Bytes4, b: Bytes4) {
    exists i :: 0 <= i < 4 && a[..i] == b[..i] && a[i] < b[i]
  }

  predicate InAlphabet(words: seq<Bytes4>) {
    forall i, j :: 0 <= i < j < |words| ==> Before(words[i], words[j])
  }

  lemma BeforeIsLess(a: Bytes4, b: Bytes4)
    requires Before(a, b)
    ensures FromBigEndian(a) < FromBigEndian(b)
  {
    var i :| 0 <= i < 4 && a[..i] == b[..i] && a[i] < b[i];
    assert forall j :: 0 <= j < i ==> a[j] == a[..i][j] == b[..i][j] == b[j];
  }

  lemma {:induction false} LinesLength(words: seq<Bytes4>)
    ensures |Lines(words)| == 5 * |words|
    decreases |words|
  {
    if words == [] {
    } else {
      LinesLength(words[1..]);
    }
  }

  lemma {:induction false} LineAt(words: seq<Bytes4>, index: nat)
    requires index < |words|
    ensures |Lines(words)| == 5 * |words| && RecordAt(Lines(words), index) == words[index]
    decreases |words|
  {
    var text, rest := Lines(words), Lines(words[1..]);
    LinesLength(words);
    LinesLength(words[1..]);
    if index == 0 {
      assert text[0..4] == words[0];
    } else {
      LineAt(words[1..], index - 1);
      assert text[5..] == rest;
      assert text[5 * index..5 * index + 4] == rest[5 * (index - 1)..5 * (index - 1) + 4];
    }
  }

  /** A file of words in alphabetical order is such a table, and lists exactly its words. */
  lemma LinesAreTable(words: seq<Bytes4>, code: RoomCode)
    requires words != [] && InAlphabet(words)
    ensures Table(Lines(words)) && Records(Lines(words)) == |words|
    ensures Listed(Lines(words), code) <==> code.bytes in words
  {
    var table := Lines(words);
    LinesLength(words);
    forall i | 0 <= i < |words| ensures RecordAt(table, i) == words[i] {
      LineAt(words, i);
    }
    forall i, j | 0 <= i < j < |words| ensures Word(table, i) <= Word(table, j) {
      BeforeIsLess(words[i], words[j]);
    }
    if code.bytes in words {
      var i :| 0 <= i < |words| && words[i] == code.bytes;
      assert RecordAt(table, i) == code.bytes;
    }
  }

  // ----- a fresh code is always left -----

  const NUM_CODES: nat := 26 * 26 * 26 * 26

  /** The n-th valid code, in alphabetical order. */
  function Nth(n: nat): RoomCode
    requires n < NUM_CODES
  {
    RoomCode([65 + n / 17576, 65 + n / 676 % 26, 65 + n / 26 % 26, 65 + n % 26])
  }

  /** Its number, recovered from the four letters. */
  function Number(code: RoomCode): int {
    var a: int, b: int, c: int, d: int := code.bytes[0], code.bytes[1], code.bytes[2], code.bytes[3];
    26 * (26 * (26 * (a - 65) + (b - 65)) + (c - 65)) + (d - 65)
  }

  lemma NumberOfNth(n: nat)
    requires n < NUM_CODES
    ensures Number(Nth(n)) == n
  {
    assert n / 676 == n / 26 / 26 && n / 17576 == n / 26 / 26 / 26;
  }

  /** A set that holds the first n codes has at least n members. */
  lemma {:induction false} HoldsFirst(n: nat, codes: set<RoomCode>)
    requires n <= NUM_CODES
    requires forall i :: 0 <= i < n ==> Nth(i) in codes
    ensures n <= |codes|
  {
    if n == 0 {
    } else {
      var last := Nth(n - 1);
      forall i | 0 <= i < n - 1 ensures Nth(i) in codes - {last} {
        NumberOfNth(i);
        NumberOfNth(n - 1);
      }
      HoldsFirst(n - 1, codes - {last});
    }
  }

  function ListedCodes(table: seq<byte>, n: nat): (codes: set<RoomCode>)
    requires n <= Records(table)
    ensures |codes| <= n
    ensures forall i :: 0 <= i < n ==> RoomCode(RecordAt(table, i)) in codes
  {
    if n == 0 then {} else ListedCodes(table, n - 1) + {RoomCode(RecordAt(table, n - 1))}
  }

  ghost function CodesOf(keys: set<u32>): (codes: set<RoomCode>)
    ensures |codes| <= |keys|
    ensures forall k :: k in keys ==> RoomCode(ToBigEndian(k)) in codes
  {
    if keys == {} then {}
    else
      var k :| k in keys;
      CodesOf(keys - {k}) + {RoomCode(ToBigEndian(k))}
  }

  /** A code the lobby may give to a new room. */
  ghost predicate Usable(rooms: set<u32>, table: seq<byte>, code: RoomCode) {
    Valid(code) && ToU32(code) !in rooms && !Listed(table, code)
  }

  /** As long as rooms and listed words together are fewer than all codes, one code is free. */
  lemma FreshCodeExists(rooms: set<u32>, table: seq<byte>) returns (code: RoomCode)
    requires |rooms| + Records(table) < NUM_CODES
    ensures Usable(rooms, table, code)
  {
    var taken := CodesOf(rooms) + ListedCodes(table, Records(table));
    if forall i :: 0 <= i < NUM_CODES ==> Nth(i) in taken {
      HoldsFirst(NUM_CODES, taken);
    }
    var n :| 0 <= n < NUM_CODES && Nth(n) !in taken;
    code := Nth(n);
    BigEndianRoundTrip(code.bytes, 0);
  }

  /** The lobby's rejection loop, over a given sequence of random draws, stops at the first usable one. */
  method ChooseCode(draws: seq<RoomCode>, rooms: set<u32>, table: seq<byte>)
    returns (choice: Option<RoomCode>, ghost tried: nat)
    requires Table(table)
    requires forall i :: 0 <= i < |draws| ==> Valid(draws[i])
    ensures tried <= |draws| && forall i :: 0 <= i < tried ==> !Usable(rooms, table, draws[i])
    ensures choice.None? ==> tried == |draws|
    ensures choice.Some? ==> tried < |draws| && choice.value == draws[tried] && Usable(rooms, table, choice.value)
  {
    for i := 0 to |draws|
      invariant forall j :: 0 <= j < i ==> !Usable(rooms, table, draws[j])
    {
      if ToU32(draws[i]) !in rooms {
        var profane := IsProfanity(draws[i], table);
        if !profane {
          return Some(draws[i]), i;
        }
      }
    }
    return None, |draws|;
  }
}
