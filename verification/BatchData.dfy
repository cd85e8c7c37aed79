/** The cache file of generated records: a header and the records, each behind its two lengths.
    Loading accepts exactly what saving writes for a compatible request. */
module BatchData {
  import opened Lists
  import opened Numbers

  type byte = n: nat | n < 256
  type Bytes = seq<byte>

  const MAGIC: Bytes := [82, 72, 50, 68, 68, 65, 84, 65]  // RH2DDATA
  const VERSION: nat := 1
  const ENDIAN: nat := 0x01020304
  const MAX_SIGNATURE: nat := 4096
  const MAX_KEY: nat := 1024
  const SEMICOLON: byte := 59

  datatype Item = Item(key: Bytes, value: Bytes)
  type Data = seq<Item>

  // What a size_t can count.
  predicate Addressable(signature: Bytes, data: Data) {
    |signature| < U64 && |data| < U64 && forall item | item in data :: |item.key| < U64 && |item.value| < U64
  }

  // ----- Numbers, least significant byte first.

  function Pow256(w: nat): (p: nat)
    ensures p > 0
  {
    if w == 0 then 1 else 256 * Pow256(w - 1)
  }

  function Encoded(v: nat, w: nat): (b: Bytes)
    ensures |b| == w
  {
    if w == 0 then [] else [v % 256] + Encoded(v / 256, w - 1)
  }

  function Number(b: Bytes): nat {
    if b == [] then 0 else b[0] + 256 * Number(b[1..])
  }

  lemma {:induction false} NumberOfEncoded(v: nat, w: nat)
    requires v < Pow256(w)
    ensures Number(Encoded(v, w)) == v
  {
    if w > 0 {
      NumberOfEncoded(v / 256, w - 1);
      assert Encoded(v, w)[1..] == Encoded(v / 256, w - 1);
    }
  }

  lemma {:induction false} EncodedOfNumber(b: Bytes)
    ensures Encoded(Number(b), |b|) == b && Number(b) < Pow256(|b|)
  {
    if b != [] {
      EncodedOfNumber(b[1..]);
      assert b == [b[0]] + b[1..];
    }
  }

  lemma WordSizes()
    ensures Pow256(4) == 0x1_0000_0000 && Pow256(8) == U64
  {
    assert Pow256(2) == 256 * Pow256(1) == 256 * 256 * Pow256(0);
    assert Pow256(4) == 256 * Pow256(3) == 256 * 256 * Pow256(2);
    assert Pow256(6) == 256 * Pow256(5) == 256 * 256 * Pow256(4);
    assert Pow256(8) == 256 * Pow256(7) == 256 * 256 * Pow256(6);
  }

  // ----- What is written.

  function HeaderOf(signature: Bytes, count: nat): Bytes {
    MAGIC + Encoded(VERSION, 4) + Encoded(ENDIAN, 4) + Encoded(count, 8) + Encoded(|signature|, 8) + signature
  }

  function RecordOf(item: Item): Bytes {
    Encoded(|item.key|, 8) + Encoded(|item.value|, 8) + item.key + item.value
  }

  function RecordsOf(data: Data): Bytes {
    if data == [] then [] else RecordOf(data[0]) + RecordsOf(data[1..])
  }

  function FileOf(signature: Bytes, data: Data): Bytes {
    HeaderOf(signature, |data|) + RecordsOf(data)
  }

  class Output {
    var bytes: Bytes

    constructor ()
      ensures bytes == []
    {
      bytes := [];
    }

    method Write(chunk: Bytes)
      modifies this
      ensures bytes == old(bytes) + chunk
    {
      bytes := bytes + chunk;
    }

    // WriteNumber for a type of w bytes
    method WriteNumber(v: nat, w: nat)
      modifies this
      ensures bytes == old(bytes) + Encoded(v, w)
    {
      Write(Encoded(v, w));
    }

    method WriteHeader(signature: Bytes, count: nat)
      modifies this
      ensures bytes == old(bytes) + HeaderOf(signature, count)
    {
      ghost var was := bytes;
      Write(MAGIC);
      WriteNumber(VERSION, 4);
      Append3(was, MAGIC, Encoded(VERSION, 4));
      WriteNumber(ENDIAN, 4);
      Append3(was, MAGIC + Encoded(VERSION, 4), Encoded(ENDIAN, 4));
      WriteNumber(count, 8);
      Append3(was, MAGIC + Encoded(VERSION, 4) + Encoded(ENDIAN, 4), Encoded(count, 8));
      WriteNumber(|signature|, 8);
      Append3(was, MAGIC + Encoded(VERSION, 4) + Encoded(ENDIAN, 4) + Encoded(count, 8), Encoded(|signature|, 8));
      Write(signature);
      Append3(was, MAGIC + Encoded(VERSION, 4) + Encoded(ENDIAN, 4) + Encoded(count, 8) + Encoded(|signature|, 8),
              signature);
    }

    // One round of the loop of Save.
    method WriteRecord(item: Item)
      modifies this
      ensures bytes == old(bytes) + RecordOf(item)
    {
      ghost var was, k, v := bytes, Encoded(|item.key|, 8), Encoded(|item.value|, 8);
      WriteNumber(|item.key|, 8);
      WriteNumber(|item.value|, 8);
      Append3(was, k, v);
      Write(item.key);
      Append3(was, k + v, item.key);
      Write(item.value);
      Append3(was, k + v + item.key, item.value);
    }
  }

  lemma Append3(a: Bytes, b: Bytes, c: Bytes)
    ensures (a + b) + c == a + (b + c)
  {}

  lemma TakeTail<T>(s: seq<T>, i: nat)
    requires 0 < i <= |s|
    ensures s[..i][0] == s[0] && s[..i][1..] == s[1..][..i - 1]
  {}

  lemma {:induction false} RecordsOfMore(data: Data, i: nat)
    requires i < |data|
    ensures RecordsOf(data[..i + 1]) == RecordsOf(data[..i]) + RecordOf(data[i])
  {
    TakeTail(data, i + 1);
    if i > 0 {
      TakeTail(data, i);
      RecordsOfMore(data[1..], i - 1);
      Append3(RecordOf(data[0]), RecordsOf(data[1..][..i - 1]), RecordOf(data[i]));
    } else {
      assert RecordsOf([]) == [] && data[..1] == [data[0]];
    }
  }

  // Save, as far as the bytes of the file go.
  method Save(signature: Bytes, data: Data) returns (file: Bytes)
    ensures file == FileOf(signature, data)
  {
    var output := new Output();
    output.WriteHeader(signature, |data|);
    for i := 0 to |data|
      invariant output.bytes == HeaderOf(signature, |data|) + RecordsOf(data[..i])
    {
      RecordsOfMore(data, i);
      Append3(HeaderOf(signature, |data|), RecordsOf(data[..i]), RecordOf(data[i]));
      output.WriteRecord(data[i]);
    }
    assert data[..|data|] == data;
    file := output.bytes;
  }

  // ----- Signatures.

  // What follows the first semicolon; empty without one.
  function ConfigSignature(signature: Bytes): Bytes {
    if signature == [] then []
    else if signature[0] == SEMICOLON then signature[1..]
    else ConfigSignature(signature[1..])
  }

  predicate Compatible(actual: Bytes, expected: Bytes) {
    ConfigSignature(actual) != [] && ConfigSignature(actual) == ConfigSignature(expected)
  }

  lemma {:induction false} ConfigIsTheRest(count: Bytes, config: Bytes)
    requires SEMICOLON !in count
    ensures ConfigSignature(count + [SEMICOLON] + config) == config
  {
    if count == [] {
      assert ([SEMICOLON] + config)[1..] == config;
      assert count + [SEMICOLON] + config == [SEMICOLON] + config;
    } else {
      ConfigIsTheRest(count[1..], config);
      assert (count + [SEMICOLON] + config)[1..] == count[1..] + [SEMICOLON] + config;
    }
  }

  // Signatures are compatible whatever count comes first, if the same configuration follows.
  lemma CompatibleWhateverTheCount(a: Bytes, b: Bytes, x: Bytes, y: Bytes)
    requires SEMICOLON !in a && SEMICOLON !in b
    ensures Compatible(a + [SEMICOLON] + x, b + [SEMICOLON] + y) <==> x == y != []
    ensures !Compatible(a, b)
  {
    ConfigIsTheRest(a, x);
    ConfigIsTheRest(b, y);
    NoConfig(a);
  }

  lemma {:induction false} NoConfig(a: Bytes)
    requires SEMICOLON !in a
    ensures ConfigSignature(a) == []
  {
    if a != [] {
      NoConfig(a[1..]);
    }
  }

  // ----- What is read.

  datatype LoadError = BadHeader | BadMetadata | BadSignature | BadRecord(index: nat)
  datatype Result<T> = Ok(value: T) | Err(error: LoadError)
  datatype Parsed<T> = Parsed(value: T, rest: Bytes)

  function Take(b: Bytes, n: nat): Option<Parsed<Bytes>> {
    if n <= |b| then Some(Parsed(b[..n], b[n..])) else None
  }

  function TakeNumber(b: Bytes, w: nat): Option<Parsed<nat>> {
    match Take(b, w)
    case None => None
    case Some(p) => Some(Parsed(Number(p.value), p.rest))
  }

  datatype Preamble = Preamble(magic: Bytes, version: nat, endian: nat, count: nat, size: nat)

  function ParsePreamble(b: Bytes): Option<Parsed<Preamble>> {
    match Take(b, 8) case None => None case Some(magic) =>
    match TakeNumber(magic.rest, 4) case None => None case Some(version) =>
    match TakeNumber(version.rest, 4) case None => None case Some(endian) =>
    match TakeNumber(endian.rest, 8) case None => None case Some(count) =>
    match TakeNumber(count.rest, 8) case None => None case Some(size) =>
    Some(Parsed(Preamble(magic.value, version.value, endian.value, count.value, size.value), size.rest))
  }

  // The stored count, and what follows the header.
  function ParseHeader(b: Bytes, expected: Bytes, count: nat): Result<Parsed<nat>> {
    match ParsePreamble(b)
    case None => Err(BadHeader)
    case Some(p) =>
      var m := p.value;
      if m.magic != MAGIC then Err(BadHeader)
      else if m.version != VERSION || m.endian != ENDIAN || m.count < count || m.size > MAX_SIGNATURE
      then Err(BadMetadata)
      else
        match Take(p.rest, m.size)
        case None => Err(BadSignature)
        case Some(signature) =>
          if Compatible(signature.value, expected) then Ok(Parsed(m.count, signature.rest)) else Err(BadSignature)
  }

  function ParseRecord(b: Bytes, maxValue: nat): Option<Parsed<Item>> {
    match TakeNumber(b, 8) case None => None case Some(keySize) =>
    match TakeNumber(keySize.rest, 8) case None => None case Some(valueSize) =>
    if keySize.value > MAX_KEY || valueSize.value > maxValue then None else
    match Take(valueSize.rest, keySize.value) case None => None case Some(key) =>
    match Take(key.rest, valueSize.value) case None => None case Some(value) =>
    Some(Parsed(Item(key.value, value.value), value.rest))
  }

  // The first n records, or the index of the first bad one.
  function ParseRecords(b: Bytes, n: nat, maxValue: nat): Result<Parsed<Data>> {
    if n == 0 then Ok(Parsed([], b))
    else
      match ParseRecords(b, n - 1, maxValue)
      case Err(e) => Err(e)
      case Ok(before) =>
        match ParseRecord(before.rest, maxValue)
        case None => Err(BadRecord(n - 1))
        case Some(p) => Ok(Parsed(before.value + [p.value], p.rest))
  }

  function Loaded(b: Bytes, expected: Bytes, n: nat, maxValue: nat): Result<Data> {
    match ParseHeader(b, expected, n)
    case Err(e) => Err(e)
    case Ok(header) =>
      match ParseRecords(header.rest, n, maxValue)
      case Err(e) => Err(e)
      case Ok(p) => Ok(p.value)
  }

  class Input {
    const bytes: Bytes
    var pos: nat
    var good: bool

    ghost predicate Valid()
      reads this
    {
      pos <= |bytes|
    }

    ghost function Rest(): Bytes
      requires Valid()
      reads this
    {
      bytes[pos..]
    }

    constructor (bytes: Bytes)
      ensures Valid() && good && Rest() == bytes
    {
      this.bytes := bytes;
      pos, good := 0, true;
    }

    // A read that comes up short leaves the stream bad.
    method Read(n: nat) returns (chunk: Bytes)
      requires Valid()
      modifies this
      ensures Valid() && good == (old(good) && Take(old(Rest()), n).Some?)
      ensures good ==> Take(old(Rest()), n) == Some(Parsed(chunk, Rest()))
    {
      chunk := [];
      if good && n <= |bytes| - pos {
        chunk := bytes[pos..pos + n];
        pos := pos + n;
        assert chunk == old(Rest())[..n] && Rest() == old(Rest())[n..];
      } else {
        good := false;
      }
    }

    // ReadNumber for a type of w bytes; the value stays 0 when there is nothing to read.
    method ReadNumber(w: nat) returns (v: nat)
      requires Valid()
      modifies this
      ensures Valid() && good == (old(good) && TakeNumber(old(Rest()), w).Some?)
      ensures good ==> TakeNumber(old(Rest()), w) == Some(Parsed(v, Rest()))
    {
      v := 0;
      var chunk := Read(w);
      if good {
        v := Number(chunk);
      }
    }

    // The fields of fixed size.
    method ReadPreamble() returns (p: Option<Preamble>)
      requires Valid() && good
      modifies this
      ensures Valid()
      ensures match ParsePreamble(old(Rest()))
              case None => p.None?
              case Some(parsed) => p == Some(parsed.value) && good && Rest() == parsed.rest
    {
      var magic := Read(8);
      var version := ReadNumber(4);
      var endian := ReadNumber(4);
      var count := ReadNumber(8);
      var size := ReadNumber(8);
      p := if good then Some(Preamble(magic, version, endian, count, size)) else None;
    }

    method ReadHeader(expected: Bytes, count: nat) returns (stored: Result<nat>)
      requires Valid() && good
      modifies this
      ensures Valid()
      ensures match ParseHeader(old(Rest()), expected, count)
              case Err(e) => stored == Err(e)
              case Ok(p) => stored == Ok(p.value) && good && Rest() == p.rest
    {
      var p := ReadPreamble();
      if p.None? || p.value.magic != MAGIC {
        return Err(BadHeader);
      }
      var m := p.value;
      if m.version != VERSION || m.endian != ENDIAN || m.count < count || m.size > MAX_SIGNATURE {
        return Err(BadMetadata);
      }
      var signature := Read(m.size);
      if !good || !Compatible(signature, expected) {
        return Err(BadSignature);
      }
      stored := Ok(m.count);
    }

    method LoadRecord(maxValue: nat) returns (item: Option<Item>)
      requires Valid() && good
      modifies this
      ensures Valid()
      ensures match ParseRecord(old(Rest()), maxValue)
              case None => item.None?
              case Some(p) => item == Some(p.value) && good && Rest() == p.rest
    {
      var keySize := ReadNumber(8);
      if !good {
        return None;
      }
      var valueSize := ReadNumber(8);
      if !good || keySize > MAX_KEY || valueSize > maxValue {
        return None;
      }
      var key := Read(keySize);
      var value := Read(valueSize);
      item := if good then Some(Item(key, value)) else None;
    }
  }

  method Load(file: Bytes, signature: Bytes, expectedCount: nat, maxValueSize: nat) returns (r: Result<Data>)
    ensures r == Loaded(file, signature, expectedCount, maxValueSize)
  {
    var input := new Input(file);
    var header := input.ReadHeader(signature, expectedCount);
    if header.Err? {
      return Err(header.error);
    }
    ghost var b := input.Rest();
    var loaded: Data := [];
    for index := 0 to expectedCount
      invariant input.Valid() && input.good
      invariant ParseRecords(b, index, maxValueSize) == Ok(Parsed(loaded, input.Rest()))
    {
      var item := input.LoadRecord(maxValueSize);
      if item.None? {
        StaysBad(b, index + 1, expectedCount, maxValueSize);
        return Err(BadRecord(index));
      }
      loaded := loaded + [item.value];
    }
    r := Ok(loaded);
  }

  lemma {:induction false} StaysBad(b: Bytes, i: nat, n: nat, maxValue: nat)
    requires i <= n && ParseRecords(b, i, maxValue).Err?
    ensures ParseRecords(b, n, maxValue) == ParseRecords(b, i, maxValue)
    decreases n - i
  {
    if i < n {
      StaysBad(b, i + 1, n, maxValue);
    }
  }

  // ----- Reading inverts writing.

  lemma TakeBack(a: Bytes, rest: Bytes)
    ensures Take(a + rest, |a|) == Some(Parsed(a, rest))
  {}

  lemma NumberBack(v: nat, w: nat, rest: Bytes)
    requires v < Pow256(w)
    ensures TakeNumber(Encoded(v, w) + rest, w) == Some(Parsed(v, rest))
  {
    NumberOfEncoded(v, w);
    TakeBack(Encoded(v, w), rest);
  }

  // ... and what a number was read from is its encoding.
  lemma NumberWas(b: Bytes, w: nat)
    requires TakeNumber(b, w).Some?
    ensures var p := TakeNumber(b, w).value; b == Encoded(p.value, w) + p.rest && p.value < Pow256(w)
  {
    EncodedOfNumber(b[..w]);
  }

  lemma TakeWas(b: Bytes, n: nat)
    requires Take(b, n).Some?
    ensures b == Take(b, n).value.value + Take(b, n).value.rest && |Take(b, n).value.value| == n
  {}

  predicate WithinLimits(item: Item, maxValue: nat) {
    |item.key| <= 1024 && |item.value| <= maxValue && |item.value| < U64
  }

  lemma RecordInParts(item: Item, rest: Bytes)
    ensures RecordOf(item) + rest
            == Encoded(|item.key|, 8) + (Encoded(|item.value|, 8) + (item.key + (item.value + rest)))
  {}

  lemma RecordBack(item: Item, rest: Bytes, maxValue: nat)
    requires |item.key| < U64 && |item.value| < U64
    ensures ParseRecord(RecordOf(item) + rest, maxValue)
            == if WithinLimits(item, maxValue) then Some(Parsed(item, rest)) else None
  {
    var k, v := Encoded(|item.key|, 8), Encoded(|item.value|, 8);
    WordSizes();
    RecordInParts(item, rest);
    NumberBack(|item.key|, 8, v + (item.key + (item.value + rest)));
    NumberBack(|item.value|, 8, item.key + (item.value + rest));
    TakeBack(item.key, item.value + rest);
    TakeBack(item.value, rest);
  }

  lemma RecordWas(b: Bytes, maxValue: nat)
    requires ParseRecord(b, maxValue).Some?
    ensures var p := ParseRecord(b, maxValue).value;
            b == RecordOf(p.value) + p.rest && WithinLimits(p.value, maxValue)
  {
    var p := ParseRecord(b, maxValue).value;
    var keySize := TakeNumber(b, 8).value;
    var valueSize := TakeNumber(keySize.rest, 8).value;
    WordSizes();
    NumberWas(b, 8);
    NumberWas(keySize.rest, 8);
    var key := Take(valueSize.rest, keySize.value).value;
    TakeWas(valueSize.rest, keySize.value);
    TakeWas(key.rest, valueSize.value);
    RecordInParts(p.value, p.rest);
  }

  // Parsing n records succeeds with d exactly on the bytes of d followed by anything.
  lemma {:induction false} RecordsIff(b: Bytes, n: nat, maxValue: nat, d: Data, rest: Bytes)
    ensures ParseRecords(b, n, maxValue) == Ok(Parsed(d, rest)) <==>
              |d| == n && b == RecordsOf(d) + rest && forall item | item in d :: WithinLimits(item, maxValue)
  {
    if n > 0 && |d| == n {
      var last := d[n - 1];
      RecordsOfMore(d, n - 1);
      assert d[..n] == d && d == d[..n - 1] + [last];
      Append3(RecordsOf(d[..n - 1]), RecordOf(last), rest);
      RecordsIff(b, n - 1, maxValue, d[..n - 1], RecordOf(last) + rest);
      if WithinLimits(last, maxValue) && b == RecordsOf(d) + rest {
        RecordBack(last, rest, maxValue);
      }
      if ParseRecords(b, n, maxValue) == Ok(Parsed(d, rest)) {
        var before := ParseRecords(b, n - 1, maxValue).value;
        RecordWas(before.rest, maxValue);
        assert before.value == d[..n - 1];
      }
    } else {
      LengthOfRecords(b, n, maxValue);
      assert RecordsOf([]) + rest == rest;
    }
  }

  lemma {:induction false} LengthOfRecords(b: Bytes, n: nat, maxValue: nat)
    ensures ParseRecords(b, n, maxValue).Ok? ==> |ParseRecords(b, n, maxValue).value.value| == n
  {
    if n > 0 {
      LengthOfRecords(b, n - 1, maxValue);
    }
  }

  lemma HeaderInParts(signature: Bytes, count: nat, rest: Bytes)
    ensures HeaderOf(signature, count) + rest
            == MAGIC + (Encoded(VERSION, 4) + (Encoded(ENDIAN, 4)
               + (Encoded(count, 8) + (Encoded(|signature|, 8) + (signature + rest)))))
  {
    var a := MAGIC;
    var b, c, d, e := Encoded(VERSION, 4), Encoded(ENDIAN, 4), Encoded(count, 8), Encoded(|signature|, 8);
    Append3(a + b + c + d + e, signature, rest);
    Append3(a + b + c + d, e, signature + rest);
    Append3(a + b + c, d, e + (signature + rest));
    Append3(a + b, c, d + (e + (signature + rest)));
    Append3(a, b, c + (d + (e + (signature + rest))));
  }

  lemma PreambleBack(signature: Bytes, count: nat, rest: Bytes)
    requires |signature| < U64 && count < U64
    ensures ParsePreamble(HeaderOf(signature, count) + rest)
            == Some(Parsed(Preamble(MAGIC, VERSION, ENDIAN, count, |signature|), signature + rest))
  {
    WordSizes();
    HeaderInParts(signature, count, rest);
    var tail := signature + rest;
    NumberBack(|signature|, 8, tail);
    NumberBack(count, 8, Encoded(|signature|, 8) + tail);
    NumberBack(ENDIAN, 4, Encoded(count, 8) + (Encoded(|signature|, 8) + tail));
    NumberBack(VERSION, 4, Encoded(ENDIAN, 4) + (Encoded(count, 8) + (Encoded(|signature|, 8) + tail)));
    TakeBack(MAGIC, Encoded(VERSION, 4)
             + (Encoded(ENDIAN, 4) + (Encoded(count, 8) + (Encoded(|signature|, 8) + tail))));
  }

  lemma HeaderWas(b: Bytes, expected: Bytes, count: nat) returns (signature: Bytes)
    requires ParseHeader(b, expected, count).Ok?
    ensures var p := ParseHeader(b, expected, count).value;
            && b == HeaderOf(signature, p.value) + p.rest && count <= p.value < U64
            && |signature| <= MAX_SIGNATURE && Compatible(signature, expected)
  {
    var magic := Take(b, 8).value;
    var version := TakeNumber(magic.rest, 4).value;
    var endian := TakeNumber(version.rest, 4).value;
    var stored := TakeNumber(endian.rest, 8).value;
    var size := TakeNumber(stored.rest, 8).value;
    WordSizes();
    TakeWas(b, 8);
    NumberWas(magic.rest, 4);
    NumberWas(version.rest, 4);
    NumberWas(endian.rest, 8);
    NumberWas(stored.rest, 8);
    TakeWas(size.rest, size.value);
    signature := Take(size.rest, size.value).value.value;
    HeaderInParts(signature, stored.value, Take(size.rest, size.value).value.rest);
  }

  // The file starts with a header for at least n records under a compatible signature and with
  // the records of d, each within the limits. What comes after them does not matter.
  predicate Holds(b: Bytes, expected: Bytes, n: nat, maxValue: nat, d: Data, signature: Bytes, stored: nat,
                  rest: Bytes)
  {
    && b == HeaderOf(signature, stored) + (RecordsOf(d) + rest)
    && n <= stored < U64 && |signature| <= MAX_SIGNATURE && Compatible(signature, expected)
    && |d| == n && forall item | item in d :: WithinLimits(item, maxValue)
  }

  // Load succeeds exactly on such files, and then with exactly these records.
  lemma LoadIff(b: Bytes, expected: Bytes, n: nat, maxValue: nat, d: Data)
    ensures Loaded(b, expected, n, maxValue) == Ok(d) <==>
              exists signature, stored, rest :: Holds(b, expected, n, maxValue, d, signature, stored, rest)
  {
    if Loaded(b, expected, n, maxValue) == Ok(d) {
      var header := ParseHeader(b, expected, n).value;
      var signature := HeaderWas(b, expected, n);
      var rest := ParseRecords(header.rest, n, maxValue).value.rest;
      RecordsIff(header.rest, n, maxValue, d, rest);
      assert Holds(b, expected, n, maxValue, d, signature, header.value, rest);
    }
    if signature, stored, rest :| Holds(b, expected, n, maxValue, d, signature, stored, rest) {
      HeaderBack(signature, stored, RecordsOf(d) + rest, expected, n);
      RecordsIff(RecordsOf(d) + rest, n, maxValue, d, rest);
    }
  }

  lemma HeaderBack(signature: Bytes, stored: nat, rest: Bytes, expected: Bytes, n: nat)
    requires |signature| < U64 && stored < U64
    ensures ParseHeader(HeaderOf(signature, stored) + rest, expected, n)
            == if stored < n || |signature| > MAX_SIGNATURE then Err(BadMetadata)
               else if !Compatible(signature, expected) then Err(BadSignature)
               else Ok(Parsed(stored, rest))
  {
    PreambleBack(signature, stored, rest);
    TakeBack(signature, rest);
  }

  // The first of n records that breaks a limit, or n.
  function FirstBad(data: Data, n: nat, maxValue: nat): (i: nat)
    requires n <= |data|
    ensures i <= n && (forall j | 0 <= j < i :: WithinLimits(data[j], maxValue))
    ensures i < n ==> !WithinLimits(data[i], maxValue)
  {
    if n == 0 then 0
    else
      var i := FirstBad(data, n - 1, maxValue);
      if i == n - 1 && WithinLimits(data[n - 1], maxValue) then n else i
  }

  // The records from n - 1 on: the one at n - 1, and those from n on.
  lemma RecordsFrom(data: Data, n: nat)
    requires 0 < n <= |data|
    ensures RecordsOf(data[n - 1..]) == RecordOf(data[n - 1]) + RecordsOf(data[n..])
    ensures data[..n] == data[..n - 1] + [data[n - 1]]
  {
    assert data[n - 1..][1..] == data[n..];
  }

  lemma OneMoreBack(data: Data, n: nat, maxValue: nat)
    requires 0 < n <= |data| && |data[n - 1].key| < U64 && |data[n - 1].value| < U64
    requires ParseRecords(RecordsOf(data), n - 1, maxValue) == Ok(Parsed(data[..n - 1], RecordsOf(data[n - 1..])))
    ensures ParseRecords(RecordsOf(data), n, maxValue)
            == if WithinLimits(data[n - 1], maxValue) then Ok(Parsed(data[..n], RecordsOf(data[n..])))
               else Err(BadRecord(n - 1))
  {
    RecordsFrom(data, n);
    RecordBack(data[n - 1], RecordsOf(data[n..]), maxValue);
  }

  lemma {:induction false} RecordsBack(data: Data, n: nat, maxValue: nat)
    requires n <= |data| && forall item | item in data :: |item.key| < U64 && |item.value| < U64
    ensures var i := FirstBad(data, n, maxValue);
            ParseRecords(RecordsOf(data), n, maxValue)
            == if i < n then Err(BadRecord(i)) else Ok(Parsed(data[..n], RecordsOf(data[n..])))
  {
    if n > 0 {
      RecordsBack(data, n - 1, maxValue);
      if FirstBad(data, n - 1, maxValue) == n - 1 {
        OneMoreBack(data, n, maxValue);
      }
    } else {
      assert data[0..] == data;
    }
  }

  // Loading n records from what was saved gives the first n of them, unless more are asked for
  // than were saved, the signature is too long or not compatible, or one of them breaks a limit.
  lemma LoadInvertsSave(signature: Bytes, data: Data, expected: Bytes, n: nat, maxValue: nat)
    requires Addressable(signature, data)
    ensures Loaded(FileOf(signature, data), expected, n, maxValue)
            == if n > |data| || |signature| > MAX_SIGNATURE then Err(BadMetadata)
               else if !Compatible(signature, expected) then Err(BadSignature)
               else
                 var i := FirstBad(data, n, maxValue);
                 if i < n then Err(BadRecord(i)) else Ok(data[..n])
  {
    HeaderBack(signature, |data|, RecordsOf(data), expected, n);
    if n <= |data| {
      RecordsBack(data, n, maxValue);
    }
  }

  // ----- Which error a file gets, read off its bytes.

  lemma SliceTwice(b: Bytes, i: nat, j: nat, k: nat)
    requires i <= j <= k <= |b|
    ensures b[i..][..j - i] == b[i..j] && b[i..][j - i..] == b[j..]
  {}

  lemma PreambleAt(b: Bytes)
    ensures ParsePreamble(b)
            == if |b| < 32 then None
               else Some(Parsed(Preamble(b[..8], Number(b[8..12]), Number(b[12..16]), Number(b[16..24]),
                                         Number(b[24..32])), b[32..]))
  {
    if |b| >= 32 {
      SliceTwice(b, 8, 12, |b|);
      SliceTwice(b, 12, 16, |b|);
      SliceTwice(b, 16, 24, |b|);
      SliceTwice(b, 24, 32, |b|);
    }
  }

  lemma FixedFields()
    ensures Encoded(VERSION, 4) == [1, 0, 0, 0] && Encoded(ENDIAN, 4) == [4, 3, 2, 1]
  {
    assert Encoded(1, 2) == [1] + Encoded(0, 1) == [1, 0];
    assert Encoded(1, 4) == [1] + Encoded(0, 3) && Encoded(0, 3) == [0] + Encoded(0, 2);
    assert Encoded(0, 2) == [0] + Encoded(0, 1) == [0, 0];
    assert Encoded(ENDIAN, 4) == [4] + Encoded(0x010203, 3) && Encoded(0x010203, 3) == [3] + Encoded(0x0102, 2);
    assert Encoded(0x0102, 2) == [2] + Encoded(1, 1) == [2, 1];
  }

  lemma FieldIs(b: Bytes, v: nat)
    requires v < Pow256(|b|)
    ensures Number(b) == v <==> b == Encoded(v, |b|)
  {
    EncodedOfNumber(b);
    NumberOfEncoded(v, |b|);
  }

  // 32 bytes that begin with RH2DDATA.
  predicate StartsAsCache(b: Bytes) {
    |b| >= 32 && b[..8] == [82, 72, 50, 68, 68, 65, 84, 65]
  }

  // Version 1, little-endian, at least n records, and a signature of at most 4096 bytes.
  predicate FitsRequest(b: Bytes, n: nat)
    requires |b| >= 32
  {
    b[8..16] == [1, 0, 0, 0, 4, 3, 2, 1] && Number(b[16..24]) >= n && Number(b[24..32]) <= 4096
  }

  predicate SignatureFits(b: Bytes, expected: Bytes)
    requires |b| >= 32
  {
    var end := 32 + Number(b[24..32]);
    end <= |b| && Compatible(b[32..end], expected)
  }

  lemma MetadataAt(b: Bytes, n: nat)
    requires |b| >= 32
    ensures FitsRequest(b, n) <==>
              Number(b[8..12]) == VERSION && Number(b[12..16]) == ENDIAN && Number(b[16..24]) >= n
              && Number(b[24..32]) <= MAX_SIGNATURE
  {
    WordSizes();
    FixedFields();
    FieldIs(b[8..12], VERSION);
    FieldIs(b[12..16], ENDIAN);
    assert b[8..16] == b[8..12] + b[12..16];
    assert b[8..12] == b[8..16][..4] && b[12..16] == b[8..16][4..];
  }

  // The header is refused for the first of three things that is wrong with it, and for nothing else.
  lemma HeaderErrors(b: Bytes, expected: Bytes, n: nat)
    ensures ParseHeader(b, expected, n)
            == if !StartsAsCache(b) then Err(BadHeader)
               else if !FitsRequest(b, n) then Err(BadMetadata)
               else if !SignatureFits(b, expected) then Err(BadSignature)
               else Ok(Parsed(Number(b[16..24]), b[32 + Number(b[24..32])..]))
  {
    PreambleAt(b);
    if StartsAsCache(b) {
      MetadataAt(b, n);
      var end := 32 + Number(b[24..32]);
      if end <= |b| {
        SliceTwice(b, 32, end, |b|);
      }
    }
  }

  // A record is two lengths of eight bytes, the key's first, and then the key and the value; it is
  // refused exactly when it is cut short or one of the two is too long.
  lemma RecordAt(b: Bytes, maxValue: nat)
    ensures ParseRecord(b, maxValue)
            == if |b| < 16 then None
               else
                 var key, value := Number(b[..8]), Number(b[8..16]);
                 if key > 1024 || value > maxValue || |b| < 16 + key + value then None
                 else Some(Parsed(Item(b[16..16 + key], b[16 + key..16 + key + value]), b[16 + key + value..]))
  {
    if |b| >= 16 {
      var key, value := Number(b[..8]), Number(b[8..16]);
      SliceTwice(b, 8, 16, |b|);
      if |b| >= 16 + key + value {
        SliceTwice(b, 16, 16 + key, |b|);
        SliceTwice(b, 16 + key, 16 + key + value, |b|);
      }
    }
  }

  // A record within the limits stands at the start of b.
  ghost predicate RecordAhead(b: Bytes, maxValue: nat) {
    exists item, rest :: WithinLimits(item, maxValue) && b == RecordOf(item) + rest
  }

  lemma RecordAheadIff(b: Bytes, maxValue: nat)
    ensures RecordAhead(b, maxValue) <==> ParseRecord(b, maxValue).Some?
  {
    if ParseRecord(b, maxValue).Some? {
      RecordWas(b, maxValue);
    }
    if item, rest :| WithinLimits(item, maxValue) && b == RecordOf(item) + rest {
      RecordBack(item, rest, maxValue);
    }
  }

  // After the records of d, all within the limits, no other such record follows.
  ghost predicate BreaksAfter(b: Bytes, maxValue: nat, d: Data, rest: Bytes) {
    && b == RecordsOf(d) + rest && (forall item | item in d :: WithinLimits(item, maxValue))
    && !RecordAhead(rest, maxValue)
  }

  lemma BreaksAt(b: Bytes, n: nat, maxValue: nat, d: Data, rest: Bytes)
    requires |d| < n && BreaksAfter(b, maxValue, d, rest)
    ensures ParseRecords(b, n, maxValue) == Err(BadRecord(|d|))
  {
    RecordsIff(b, |d|, maxValue, d, rest);
    RecordAheadIff(rest, maxValue);
    StaysBad(b, |d| + 1, n, maxValue);
  }

  lemma BrokeHere(b: Bytes, n: nat, maxValue: nat, d: Data, rest: Bytes)
    requires ParseRecords(b, n, maxValue) == Ok(Parsed(d, rest)) && ParseRecords(b, n + 1, maxValue).Err?
    ensures |d| == n && BreaksAfter(b, maxValue, d, rest) && ParseRecords(b, n + 1, maxValue) == Err(BadRecord(n))
  {
    RecordsIff(b, n, maxValue, d, rest);
    RecordAheadIff(rest, maxValue);
  }

  lemma {:induction false} FirstBadIndex(b: Bytes, n: nat, maxValue: nat) returns (i: nat)
    requires ParseRecords(b, n, maxValue).Err?
    ensures i < n && ParseRecords(b, i, maxValue).Ok? && ParseRecords(b, i + 1, maxValue).Err?
  {
    i := n - 1;
    if ParseRecords(b, i, maxValue).Err? {
      i := FirstBadIndex(b, i, maxValue);
    }
  }

  lemma BrokeAt(b: Bytes, n: nat, maxValue: nat) returns (d: Data, rest: Bytes)
    requires ParseRecords(b, n, maxValue).Err?
    ensures |d| < n && BreaksAfter(b, maxValue, d, rest)
  {
    var i := FirstBadIndex(b, n, maxValue);
    var before := ParseRecords(b, i, maxValue).value;
    d, rest := before.value, before.rest;
    BrokeHere(b, i, maxValue, d, rest);
  }

  // The records are refused with index i if and only if exactly i good ones come first.
  lemma RecordErrors(b: Bytes, n: nat, maxValue: nat, i: nat)
    ensures ParseRecords(b, n, maxValue) == Err(BadRecord(i)) <==>
              i < n && exists d, rest :: |d| == i && BreaksAfter(b, maxValue, d, rest)
  {
    if ParseRecords(b, n, maxValue).Err? {
      var d, rest := BrokeAt(b, n, maxValue);
      BreaksAt(b, n, maxValue, d, rest);
    }
    if d, rest :| |d| == i && i < n && BreaksAfter(b, maxValue, d, rest) {
      BreaksAt(b, n, maxValue, d, rest);
    }
  }
}
