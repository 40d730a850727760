/** Local decoding of a pickcode (internal/drive/pickcode.go): a prefix choosing a substitution
    table, the file identifier in base 36 under that substitution, and four check characters. */
module Pickcode {
  import opened Bytes
  import opened Numerals
  import Records

  /** `pickcodeTrans`. */
  function Table(prefix: string): Option<string> {
    if prefix == "a" then Some("fuln1ytpj3smg8d5a094qh7cxkbi62zvewro")
    else if prefix == "b" then Some("sk721n9a0emlfpcrzbqdw3gjh6ty5xui48vo")
    else if prefix == "c" then Some("ywcz3hite6f1j0guoakvdb2ns7p8qr9ml5x4")
    else if prefix == "d" then Some("rq2vl5o7wsken9u8tp4jg3zbyc6xmhifd01a")
    else if prefix == "e" then Some("ljm9eqbcfhw7ktv3x1dgp5ua8y6s4znr2io0")
    else if prefix == "fa" then Some("fumk0ytpj3sng8d5a194qh7cxlbi62zvewro")
    else if prefix == "fb" then Some("sk732o9a1enmfpcrzbqdw4gjh6ty5xui08vl")
    else if prefix == "fc" then Some("ywcz6hite9f4j3gup2kvdb5osal0qr1nm8x7")
    else if prefix == "fd" then Some("on6vl0r2wpkeq9u3ts8jg7zbyc1xmhifd45a")
    else if prefix == "fe" then Some("ljm0es2cfhwakqv6x4dgp8r1by9u7znt5io3")
    else None
  }

  // ---- the tables are permutations ----

  ghost predicate Permutes(t: string) {
    && |t| == 36
    && AllDigits(36, t)
    && (forall i, j :: 0 <= i < j < 36 ==> t[i] != t[j])
    && (forall c :: 0 <= DigitOf(c) ==> c in t)
  }

  /** `at` says where in the table each of the 36 digits stands. */
  ghost predicate Located(t: string, at: seq<int>) {
    |t| == 36 && |at| == 36 && forall d :: 0 <= d < 36 ==> 0 <= at[d] < 36 && DigitOf(t[at[d]]) == d
  }

  ghost function Below(n: nat): (s: set<int>)
    ensures |s| == n && forall x :: x in s <==> 0 <= x < n
  {
    if n == 0 then {} else Below(n - 1) + {n - 1}
  }

  ghost function Elements(at: seq<int>): (s: set<int>)
    ensures forall x :: x in s <==> x in at
  {
    if at == [] then {} else Elements(at[1..]) + {at[0]}
  }

  lemma {:induction false} DistinctCount(at: seq<int>)
    requires forall i, j :: 0 <= i < j < |at| ==> at[i] != at[j]
    ensures |Elements(at)| == |at|
  {
    if at != [] { DistinctCount(at[1..]); }
  }

  /** Thirty-six different positions among thirty-six are all of them. */
  lemma Pigeonhole(at: seq<int>, p: int)
    requires forall i, j :: 0 <= i < j < |at| ==> at[i] != at[j]
    requires forall i :: 0 <= i < |at| ==> 0 <= at[i] < |at|
    requires 0 <= p < |at|
    ensures p in at
  {
    DistinctCount(at);
    if p !in at {
      assert Elements(at) <= Below(|at|) - {p};
      Fits(Elements(at), Below(|at|) - {p});
    }
  }

  lemma {:induction false} Fits<T>(a: set<T>, b: set<T>)
    requires a <= b
    ensures |a| <= |b|
  {
    if a != {} {
      var x :| x in a;
      Fits(a - {x}, b - {x});
    }
  }

  lemma LocatedPermutes(t: string, at: seq<int>)
    requires Located(t, at)
    ensures Permutes(t)
  {
    forall p | 0 <= p < 36 ensures 0 <= DigitOf(t[p]) < 36 && at[DigitOf(t[p])] == p {
      Pigeonhole(at, p);
    }
    forall c | 0 <= DigitOf(c) ensures c in t {
      DigitInjective(t[at[DigitOf(c)]], c);
    }
  }

  /** What the first and the last symbol stand for together. */
  function Ends(t: string): int {
    if |t| == 36 then 36 * DigitOf(t[0]) + DigitOf(t[35]) else -1
  }

  lemma TableA()
    ensures Table("a").Some? && Permutes(Table("a").value)
    ensures Located(Table("a").value,
      [17, 4, 29, 9, 19, 15, 28, 22, 13, 18, 16, 26, 23, 14, 32, 0, 12, 21, 27, 8, 25, 2, 11, 3,
       35, 7, 20, 34, 10, 6, 1, 31, 33, 24, 5, 30])
  {
    hide Permutes;
    LocatedPermutes("fuln1ytpj3smg8d5a094qh7cxkbi62zvewro",
      [17, 4, 29, 9, 19, 15, 28, 22, 13, 18, 16, 26, 23, 14, 32, 0, 12, 21, 27, 8, 25, 2, 11, 3,
       35, 7, 20, 34, 10, 6, 1, 31, 33, 24, 5, 30]);
  }

  lemma TableB()
    ensures Table("b").Some? && Permutes(Table("b").value)
    ensures Located(Table("b").value,
      [8, 4, 3, 21, 32, 28, 25, 2, 33, 6, 7, 17, 14, 19, 9, 12, 22, 24, 31, 23, 1, 11, 10, 5,
       35, 13, 18, 15, 0, 26, 30, 34, 20, 29, 27, 16])
  {
    hide Permutes;
    LocatedPermutes("sk721n9a0emlfpcrzbqdw3gjh6ty5xui48vo",
      [8, 4, 3, 21, 32, 28, 25, 2, 33, 6, 7, 17, 14, 19, 9, 12, 22, 24, 31, 23, 1, 11, 10, 5,
       35, 13, 18, 15, 0, 26, 30, 34, 20, 29, 27, 16]);
  }

  lemma TableC()
    ensures Table("c").Some? && Permutes(Table("c").value)
    ensures Located(Table("c").value,
      [13, 11, 22, 4, 35, 33, 9, 25, 27, 30, 17, 21, 2, 20, 8, 10, 14, 5, 6, 12, 18, 32, 31, 23,
       16, 26, 28, 29, 24, 7, 15, 19, 1, 34, 0, 3])
  {
    hide Permutes;
    LocatedPermutes("ywcz3hite6f1j0guoakvdb2ns7p8qr9ml5x4",
      [13, 11, 22, 4, 35, 33, 9, 25, 27, 30, 17, 21, 2, 20, 8, 10, 14, 5, 6, 12, 18, 32, 31, 23,
       16, 26, 28, 29, 24, 7, 15, 19, 1, 34, 0, 3]);
  }

  lemma TableD()
    ensures Table("d").Some? && Permutes(Table("d").value)
    ensures Located(Table("d").value,
      [33, 34, 2, 21, 18, 5, 26, 7, 15, 13, 35, 23, 25, 32, 11, 31, 20, 29, 30, 19, 10, 4, 28, 12,
       6, 17, 1, 0, 9, 16, 14, 3, 8, 27, 24, 22])
  {
    hide Permutes;
    LocatedPermutes("rq2vl5o7wsken9u8tp4jg3zbyc6xmhifd01a",
      [33, 34, 2, 21, 18, 5, 26, 7, 15, 13, 35, 23, 25, 32, 11, 31, 20, 29, 30, 19, 10, 4, 28, 12,
       6, 17, 1, 0, 9, 16, 14, 3, 8, 27, 24, 22]);
  }

  lemma TableE()
    ensures Table("e").Some? && Permutes(Table("e").value)
    ensures Located(Table("e").value,
      [35, 17, 32, 15, 28, 21, 26, 11, 24, 3, 23, 6, 7, 18, 4, 8, 19, 9, 33, 1, 12, 0, 2, 30,
       34, 20, 5, 31, 27, 13, 22, 14, 10, 16, 25, 29])
  {
    hide Permutes;
    LocatedPermutes("ljm9eqbcfhw7ktv3x1dgp5ua8y6s4znr2io0",
      [35, 17, 32, 15, 28, 21, 26, 11, 24, 3, 23, 6, 7, 18, 4, 8, 19, 9, 33, 1, 12, 0, 2, 30,
       34, 20, 5, 31, 27, 13, 22, 14, 10, 16, 25, 29]);
  }

  lemma TableFA()
    ensures Table("fa").Some? && Permutes(Table("fa").value)
    ensures Located(Table("fa").value,
      [4, 17, 29, 9, 19, 15, 28, 22, 13, 18, 16, 26, 23, 14, 32, 0, 12, 21, 27, 8, 3, 25, 2, 11,
       35, 7, 20, 34, 10, 6, 1, 31, 33, 24, 5, 30])
  {
    hide Permutes;
    LocatedPermutes("fumk0ytpj3sng8d5a194qh7cxlbi62zvewro",
      [4, 17, 29, 9, 19, 15, 28, 22, 13, 18, 16, 26, 23, 14, 32, 0, 12, 21, 27, 8, 3, 25, 2, 11,
       35, 7, 20, 34, 10, 6, 1, 31, 33, 24, 5, 30]);
  }

  lemma TableFB()
    ensures Table("fb").Some? && Permutes(Table("fb").value)
    ensures Located(Table("fb").value,
      [32, 8, 4, 3, 21, 28, 25, 2, 33, 6, 7, 17, 14, 19, 9, 12, 22, 24, 31, 23, 1, 35, 11, 10,
       5, 13, 18, 15, 0, 26, 30, 34, 20, 29, 27, 16])
  {
    hide Permutes;
    LocatedPermutes("sk732o9a1enmfpcrzbqdw4gjh6ty5xui08vl",
      [32, 8, 4, 3, 21, 28, 25, 2, 33, 6, 7, 17, 14, 19, 9, 12, 22, 24, 31, 23, 1, 35, 11, 10,
       5, 13, 18, 15, 0, 26, 30, 34, 20, 29, 27, 16]);
  }

  lemma TableFC()
    ensures Table("fc").Some? && Permutes(Table("fc").value)
    ensures Located(Table("fc").value,
      [27, 30, 17, 13, 11, 22, 4, 35, 33, 9, 25, 21, 2, 20, 8, 10, 14, 5, 6, 12, 18, 26, 32, 31,
       23, 16, 28, 29, 24, 7, 15, 19, 1, 34, 0, 3])
  {
    hide Permutes;
    LocatedPermutes("ywcz6hite9f4j3gup2kvdb5osal0qr1nm8x7",
      [27, 30, 17, 13, 11, 22, 4, 35, 33, 9, 25, 21, 2, 20, 8, 10, 14, 5, 6, 12, 18, 26, 32, 31,
       23, 16, 28, 29, 24, 7, 15, 19, 1, 34, 0, 3]);
  }

  lemma TableFD()
    ensures Table("fd").Some? && Permutes(Table("fd").value)
    ensures Located(Table("fd").value,
      [5, 26, 7, 15, 33, 34, 2, 21, 18, 13, 35, 23, 25, 32, 11, 31, 20, 29, 30, 19, 10, 4, 28, 1,
       0, 9, 12, 6, 17, 16, 14, 3, 8, 27, 24, 22])
  {
    hide Permutes;
    LocatedPermutes("on6vl0r2wpkeq9u3ts8jg7zbyc1xmhifd45a",
      [5, 26, 7, 15, 33, 34, 2, 21, 18, 13, 35, 23, 25, 32, 11, 31, 20, 29, 30, 19, 10, 4, 28, 1,
       0, 9, 12, 6, 17, 16, 14, 3, 8, 27, 24, 22]);
  }

  lemma TableFE()
    ensures Table("fe").Some? && Permutes(Table("fe").value)
    ensures Located(Table("fe").value,
      [3, 23, 6, 35, 17, 32, 15, 28, 21, 26, 11, 24, 7, 18, 4, 8, 19, 9, 33, 1, 12, 0, 2, 30,
       34, 20, 13, 22, 5, 31, 27, 14, 10, 16, 25, 29])
  {
    hide Permutes;
    LocatedPermutes("ljm0es2cfhwakqv6x4dgp8r1by9u7znt5io3",
      [3, 23, 6, 35, 17, 32, 15, 28, 21, 26, 11, 24, 7, 18, 4, 8, 19, 9, 33, 1, 12, 0, 2, 30,
       34, 20, 13, 22, 5, 31, 27, 14, 10, 16, 25, 29]);
  }

  /** All ten tables are permutations of the 36 symbols. */
  lemma TablesPermute(prefix: string)
    requires Table(prefix).Some?
    ensures Permutes(Table(prefix).value)
  {
    hide Permutes;
    match prefix
    case "a" => TableA();
    case "b" => TableB();
    case "c" => TableC();
    case "d" => TableD();
    case "e" => TableE();
    case "fa" => TableFA();
    case "fb" => TableFB();
    case "fc" => TableFC();
    case "fd" => TableFD();
    case "fe" => TableFE();
    case _ =>
  }

  // ---- decoding ----

  function PrefixLen(pickcode: string): nat {
    if pickcode != "" && pickcode[0] == 'f' then 2 else 1
  }

  function Prefix(pickcode: string): string
    requires |pickcode| >= PrefixLen(pickcode) + 5
  {
    pickcode[..PrefixLen(pickcode)]
  }

  /** The enciphered digits between the prefix and the four check characters. */
  function Midfix(pickcode: string): (m: string)
    requires |pickcode| >= PrefixLen(pickcode) + 5
    ensures m != ""
  {
    pickcode[PrefixLen(pickcode)..|pickcode| - 4]
  }

  function Decipher(table: string, cipher: string): (plain: string)
    requires |table| == 36 && AllDigits(36, cipher)
    ensures |plain| == |cipher|
    ensures forall i :: 0 <= i < |cipher| ==> plain[i] == table[DigitOf(cipher[i])]
  {
    seq(|cipher|, i requires 0 <= i < |cipher| => table[DigitOf(cipher[i])])
  }

  /** `strconv.ParseUint(s, 36, 64)` on digits, then `strconv.FormatUint(id, 10)`. */
  function Renumber(s: string): (r: Option<string>)
    requires AllDigits(36, s)
    ensures r.Some? ==> r.value != ""
  {
    if s == "" || ValueOf(36, s) >= Records.TWO_64 then None else Some(Numeral(10, ValueOf(36, s)))
  }

  predicate Readable(pickcode: string) {
    && |pickcode| >= PrefixLen(pickcode) + 5
    && Table(Prefix(pickcode)).Some?
    && AllDigits(36, Midfix(pickcode))
  }

  lemma DecipherDigits(prefix: string, cipher: string)
    requires Table(prefix).Some? && |Table(prefix).value| == 36 && AllDigits(36, cipher)
    ensures AllDigits(36, Decipher(Table(prefix).value, cipher))
  {
    hide Table;
    TablesPermute(prefix);
  }

  function ToID(pickcode: string): (r: Option<string>)
    ensures r.Some? ==> r.value != ""
  {
    if !Readable(pickcode) then None
    else
      TablesPermute(Prefix(pickcode));
      DecipherDigits(Prefix(pickcode), Midfix(pickcode));
      Renumber(Decipher(Table(Prefix(pickcode)).value, Midfix(pickcode)))
  }

  /** `PickcodeToID`, with its loop over the midfix. */
  method PickcodeToID(pickcode: string) returns (r: Option<string>)
    ensures r == ToID(pickcode)
  {
    hide Table, AllDigits;
    if pickcode == "" { return None; }
    var prefixLen := 1;
    if pickcode[0] == 'f' { prefixLen := 2; }
    if |pickcode| < prefixLen + 5 { return None; }
    if pickcode[0] !in "abcdef" { UnknownPrefix(pickcode[..prefixLen]); return None; }
    var prefix := pickcode[..prefixLen];
    var cipher := pickcode[prefixLen..|pickcode| - 4];
    var dec := Table(prefix);
    if dec.None? { return None; }
    TablesPermute(prefix);
    var sb := "";
    assert AllDigits(36, cipher[..0]) by { NoDigits(); }
    for i := 0 to |cipher|
      invariant |sb| == i
      invariant AllDigits(36, cipher[..i])
      invariant forall k :: 0 <= k < i ==> 0 <= DigitOf(cipher[k]) < 36 && sb[k] == dec.value[DigitOf(cipher[k])]
    {
      var idx := DigitOf(cipher[i]);
      OneMoreDigit(cipher, i);
      if idx < 0 { return None; }
      sb := sb + [dec.value[idx]];
    }
    assert cipher[..|cipher|] == cipher;
    DecipherDigits(prefix, cipher);
    assert sb == Decipher(dec.value, cipher);
    r := Renumber(sb);
  }

  lemma UnknownPrefix(prefix: string)
    requires prefix != "" && prefix[0] !in "abcdef"
    ensures Table(prefix).None?
  {}

  lemma NoDigits()
    ensures AllDigits(36, "")
  {}

  lemma OneMoreDigit(cipher: string, i: nat)
    requires i < |cipher| && AllDigits(36, cipher[..i])
    ensures AllDigits(36, cipher[..i + 1]) <==> DigitOf(cipher[i]) >= 0
    ensures DigitOf(cipher[i]) < 0 ==> !AllDigits(36, cipher)
  {
    assert cipher[..i + 1][i] == cipher[i];
  }

  // ---- the encoder the decoder undoes ----

  /** Each plain digit becomes the symbol whose table entry it is. */
  function Encipher(table: string, plain: string): (cipher: string)
    requires |table| == 36 && forall c :: c in plain ==> c in table
    ensures |cipher| == |plain|
    ensures AllDigits(36, cipher)
    ensures forall i :: 0 <= i < |plain| ==> table[DigitOf(cipher[i])] == plain[i]
  {
    seq(|plain|, i requires 0 <= i < |plain| => DigitChar(IndexByte(table, plain[i])))
  }

  lemma Enciphered(prefix: string, plain: string)
    requires Table(prefix).Some? && AllDigits(36, plain)
    ensures |Table(prefix).value| == 36 && forall c :: c in plain ==> c in Table(prefix).value
  {
    hide Table;
    TablesPermute(prefix);
  }

  /** The pickcode of a base-36 string under one prefix, closed by four check characters. */
  function EncodeDigits(prefix: string, plain: string, suffix: string): string
    requires Table(prefix).Some? && AllDigits(36, plain)
  {
    Enciphered(prefix, plain);
    prefix + Encipher(Table(prefix).value, plain) + suffix
  }

  function Encode(prefix: string, fid: nat, suffix: string): string
    requires Table(prefix).Some?
  {
    EncodeDigits(prefix, Numeral(36, fid), suffix)
  }

  lemma PrefixShape(prefix: string)
    requires Table(prefix).Some?
    ensures prefix != "" && |prefix| == PrefixLen(prefix)
  {}

  /** Any base-36 digits, leading zeros included, decode to their decimal value; values that do
      not fit 64 bits are rejected. */
  lemma {:induction false} DecodeAfterEncodeDigits(prefix: string, plain: string, suffix: string)
    requires Table(prefix).Some? && AllDigits(36, plain) && plain != "" && |suffix| == 4
    ensures ToID(EncodeDigits(prefix, plain, suffix))
         == if ValueOf(36, plain) < Records.TWO_64 then Some(Numeral(10, ValueOf(36, plain))) else None
  {
    hide Table, AllDigits, ValueOf, Numeral;
    Enciphered(prefix, plain);
    PrefixShape(prefix);
    var t := Table(prefix).value;
    var cipher := Encipher(t, plain);
    var code := EncodeDigits(prefix, plain, suffix);
    assert code == prefix + cipher + suffix && code[0] == prefix[0];
    assert Prefix(code) == prefix && Midfix(code) == cipher;
    assert Decipher(t, cipher) == plain;
  }

  /** Every 64-bit file identifier survives, under every prefix and every suffix. */
  lemma DecodeAfterEncode(prefix: string, fid: nat, suffix: string)
    requires Table(prefix).Some? && |suffix| == 4
    ensures ToID(Encode(prefix, fid, suffix)) == if fid < Records.TWO_64 then Some(Numeral(10, fid)) else None
  {
    hide Table, Numeral, ValueOf;
    ValueOfNumeral(36, fid);
    DecodeAfterEncodeDigits(prefix, Numeral(36, fid), suffix);
  }

  /** The other direction: every pickcode the decoder accepts is the encoding of some base-36
      digits, and the answer is their decimal value. */
  lemma {:induction false} EncodeAfterDecode(pickcode: string)
    requires ToID(pickcode).Some?
    ensures var prefix, suffix := Prefix(pickcode), pickcode[|pickcode| - 4..];
      && |Table(prefix).value| == 36
      && AllDigits(36, Decipher(Table(prefix).value, Midfix(pickcode)))
      && EncodeDigits(prefix, Decipher(Table(prefix).value, Midfix(pickcode)), suffix) == pickcode
  {
    hide Table, AllDigits, Renumber;
    var prefix, cipher, suffix := Prefix(pickcode), Midfix(pickcode), pickcode[|pickcode| - 4..];
    TablesPermute(prefix);
    DecipherDigits(prefix, cipher);
    var t := Table(prefix).value;
    var plain := Decipher(t, cipher);
    Enciphered(prefix, plain);
    CipherUnique(t, plain, Encipher(t, plain), cipher);
    assert pickcode == prefix + cipher + suffix;
  }

  /** A permutation leaves only one ciphertext per plaintext. */
  lemma CipherUnique(table: string, plain: string, a: string, b: string)
    requires Permutes(table)
    requires AllDigits(36, a) && AllDigits(36, b) && |a| == |b| == |plain|
    requires forall i :: 0 <= i < |plain| ==> table[DigitOf(a[i])] == plain[i] && table[DigitOf(b[i])] == plain[i]
    ensures a == b
  {
    forall i | 0 <= i < |a| ensures a[i] == b[i] {
      var x, y := DigitOf(a[i]), DigitOf(b[i]);
      assert table[x] == plain[i] && table[y] == plain[i];
      assert x == y;
      DigitInjective(a[i], b[i]);
    }
  }

  lemma NumeralInjective(a: nat, b: nat)
    requires Numeral(10, a) == Numeral(10, b)
    ensures a == b
  {
    ValueOfNumeral(10, a);
    ValueOfNumeral(10, b);
  }

  /** Under one prefix, pickcodes of one length decode to the same identifier only if their
      midfixes are equal. */
  lemma {:induction false} SameLengthInjective(a: string, b: string)
    requires ToID(a).Some? && ToID(a) == ToID(b)
    requires |a| == |b| && Prefix(a) == Prefix(b)
    ensures Midfix(a) == Midfix(b)
  {
    hide Table, AllDigits, ValueOf, Numeral;
    var prefix := Prefix(a);
    TablesPermute(prefix);
    DecipherDigits(prefix, Midfix(a));
    DecipherDigits(prefix, Midfix(b));
    var t := Table(prefix).value;
    var x, y := Decipher(t, Midfix(a)), Decipher(t, Midfix(b));
    NumeralInjective(ValueOf(36, x), ValueOf(36, y));
    ValueInjective(36, x, y);
    CipherUnique(t, x, Midfix(a), Midfix(b));
  }

  // ---- ten codes ----

  /** Two symbols under a known prefix, and four check characters. */
  lemma ShortCode(prefix: string, x: char, y: char, hi: nat, lo: nat)
    requires Table(prefix).Some? && 0 <= DigitOf(x) && 0 <= DigitOf(y)
    requires |Table(prefix).value| == 36 && AllDigits(36, Table(prefix).value)
    requires DigitOf(Table(prefix).value[DigitOf(x)]) == hi && DigitOf(Table(prefix).value[DigitOf(y)]) == lo
    ensures ToID(prefix + [x, y] + "0000") == Some(Numeral(10, 36 * hi + lo))
  {
    hide Table, Numeral;
    var code := prefix + [x, y] + "0000";
    PrefixShape(prefix);
    PrefixStarts(prefix);
    assert code[..|prefix|] == prefix && code[|prefix|..|code| - 4] == [x, y];
    assert AllDigits(36, [x, y]);
    var plain := Decipher(Table(prefix).value, [x, y]);
    assert plain == [Table(prefix).value[DigitOf(x)], Table(prefix).value[DigitOf(y)]];
    assert plain[..1] == [plain[0]] && plain[..1][..0] == "";
    assert ValueOf(36, plain[..1]) == hi;
    assert ValueOf(36, plain) == 36 * hi + lo;
  }

  lemma PrefixStarts(prefix: string)
    requires Table(prefix).Some?
    ensures prefix != "" && PrefixLen(prefix) == |prefix|
  {}

  /** What the first and the last symbol stand for together, under every prefix. */
  function ShortValue(prefix: string): nat {
    match prefix
    case "a" => 564
    case "b" => 1032
    case "c" => 1228
    case "d" => 982
    case "e" => 756
    case "fa" => 564
    case "fb" => 1029
    case "fc" => 1231
    case "fd" => 874
    case _ => 759
  }

  lemma EndsAB(prefix: string)
    requires prefix in {"a", "b", "fa", "fb"}
    ensures Table(prefix).Some? && Ends(Table(prefix).value) == ShortValue(prefix)
  {}

  lemma EndsCD(prefix: string)
    requires prefix in {"c", "d", "fc", "fd"}
    ensures Table(prefix).Some? && Ends(Table(prefix).value) == ShortValue(prefix)
  {}

  lemma EndsE(prefix: string)
    requires prefix in {"e", "fe"}
    ensures Table(prefix).Some? && Ends(Table(prefix).value) == ShortValue(prefix)
  {}

  lemma EndsOfTable(prefix: string)
    requires Table(prefix).Some?
    ensures Ends(Table(prefix).value) == ShortValue(prefix)
  {
    hide Ends, ShortValue;
    if prefix in {"a", "b", "fa", "fb"} {
      EndsAB(prefix);
    } else if prefix in {"c", "d", "fc", "fd"} {
      EndsCD(prefix);
    } else {
      EndsE(prefix);
    }
  }

  lemma ShortCodes(prefix: string)
    requires Table(prefix).Some?
    ensures ToID(prefix + "0z" + "0000") == Some(Numeral(10, ShortValue(prefix)))
  {
    hide Table, ToID, ShortValue;
    EndsOfTable(prefix);
    TablesPermute(prefix);
    var t := Table(prefix).value;
    ShortCode(prefix, '0', 'z', DigitOf(t[0]), DigitOf(t[35]));
    assert ['0', 'z'] == "0z";
  }
}
