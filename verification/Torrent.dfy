/** The bencode span finder (internal/drive/torrent.go), against a printer for the format of
    BEP 3, section "bencoding". */
module Torrent {
  import opened Bytes
  import opened Numerals

  // ---- the format ----

  datatype Value =
    | Int(n: int)
    | Str(s: string)
    | List(items: seq<Value>)
    | Dict(entries: seq<Entry>)

  datatype Entry = Entry(key: string, value: Value)

  function Decimal(n: nat): (r: string)
    ensures r != "" && IsDigits(r)
  {
    Numeral(10, n)
  }

  predicate IsDigits(s: string) {
    s != "" && forall i :: 0 <= i < |s| ==> '0' <= s[i] <= '9'
  }

  function Signed(n: int): string {
    if n < 0 then "-" + Decimal(-n) else Decimal(n)
  }

  function EncodeStr(s: string): string {
    Decimal(|s|) + ":" + s
  }

  function Encode(v: Value): (r: string)
    ensures r != ""
    decreases v, 0
  {
    match v
    case Int(n) => "i" + Signed(n) + "e"
    case Str(s) => EncodeStr(s)
    case List(items) => "l" + EncodeItems(items) + "e"
    case Dict(entries) => "d" + EncodeEntries(entries) + "e"
  }

  function EncodeItems(items: seq<Value>): string
    decreases items, 0
  {
    if items == [] then "" else Encode(items[0]) + EncodeItems(items[1..])
  }

  function EncodeEntries(entries: seq<Entry>): string
    decreases entries, 0
  {
    if entries == [] then ""
    else
      EncodeStr(entries[0].key) + Encode(entries[0].value) + EncodeEntries(entries[1..])
  }

  // ---- reading ----

  /** `strconv.Atoi`: an optional sign, then digits; integers are unbounded here. */
  function Atoi(s: string): Option<int> {
    if IsDigits(s) then Some(ValueOf(10, s))
    else if s != "" && (s[0] == '-' || s[0] == '+') && IsDigits(s[1..]) then
      var v: int := ValueOf(10, s[1..]);
      Some(if s[0] == '-' then -v else v)
    else None
  }

  /** Digits, with one sign or none before them. */
  lemma AtoiExactly(s: string)
    ensures IsDigits(s) ==> Atoi(s) == Some(ValueOf(10, s))
    ensures s != "" && s[0] == '+' && IsDigits(s[1..]) ==> Atoi(s) == Some(ValueOf(10, s[1..]))
    ensures s != "" && s[0] == '-' && IsDigits(s[1..]) ==> Atoi(s) == Some(0 - ValueOf(10, s[1..]))
    ensures !IsDigits(s) && !(s != "" && s[0] in {'+', '-'} && IsDigits(s[1..])) ==> Atoi(s) == None
  {}

  /** `readBString`: the content and the position after it. */
  function ReadBString(data: string, pos: nat): (r: Option<(string, nat)>)
    requires pos <= |data|
    ensures r.Some? ==> pos < r.value.1 <= |data|
  {
    var i := IndexByte(data[pos..], ':');
    if i < 0 then None
    else
      var colon := pos + i;
      match Atoi(data[pos..colon])
      case None => None
      case Some(length) =>
        if length < 0 then None
        else
          var end := colon + 1 + length;
          if end > |data| then None else Some((data[colon + 1..end], end))
  }

  /** Past the first 'e' from `pos`, or the end of the data. */
  function SkipInt(data: string, pos: nat): (r: nat)
    requires pos < |data|
    ensures pos < r <= |data|
  {
    var i := IndexByte(data[pos..], 'e');
    if i < 0 then |data| else pos + i + 1
  }

  /** `skipValue`: the position after the value at `pos`. */
  function Skip(data: string, pos: nat): (r: nat)
    requires pos <= |data|
    ensures pos <= r <= |data| && (pos < |data| ==> pos < r)
    decreases |data| - pos, 0
  {
    if pos == |data| then pos
    else if data[pos] == 'i' then SkipInt(data, pos)
    else if data[pos] == 'l' || data[pos] == 'd' then SkipContainer(data, pos + 1)
    else match ReadBString(data, pos) case None => |data| case Some((_, next)) => next
  }

  /** The loop inside a list or dictionary: element after element up to the closing 'e'. */
  function SkipContainer(data: string, pos: nat): (r: nat)
    requires pos <= |data|
    ensures pos <= r <= |data| && (pos < |data| ==> pos < r)
    decreases |data| - pos, 1
  {
    if pos == |data| then |data|
    else if data[pos] == 'e' then pos + 1
    else if data[pos] == 'i' then SkipContainer(data, SkipInt(data, pos))
    else if data[pos] == 'l' || data[pos] == 'd' then SkipContainer(data, Skip(data, pos))
    else match ReadBString(data, pos) case None => |data| case Some((_, next)) => SkipContainer(data, next)
  }

  /** `skipValue` as written: a loop over the elements with recursion for nested containers.
      On arbitrary bytes it terminates and lands in (pos, len]. */
  method SkipValue(data: string, start: nat) returns (r: nat)
    requires start <= |data|
    ensures r == Skip(data, start)
    ensures start < |data| ==> start < r <= |data|
    decreases |data| - start
  {
    hide IndexByte, ReadBString;
    var pos := start;
    if pos >= |data| { return pos; }
    if data[pos] == 'i' {
      var end := IndexByte(data[pos..], 'e');
      if end < 0 { return |data|; }
      return pos + end + 1;
    }
    if data[pos] == 'l' || data[pos] == 'd' {
      pos := pos + 1;
      while true
        invariant start < pos <= |data|
        invariant SkipContainer(data, pos) == Skip(data, start)
        decreases |data| - pos
      {
        if pos >= |data| { return |data|; }
        if data[pos] == 'e' {
          return pos + 1;
        } else if data[pos] == 'i' {
          var end := IndexByte(data[pos..], 'e');
          if end < 0 { assert SkipInt(data, pos) == |data|; return |data|; }
          assert SkipInt(data, pos) == pos + end + 1;
          pos := pos + end + 1;
        } else if data[pos] == 'l' || data[pos] == 'd' {
          pos := SkipValue(data, pos);
        } else {
          var b := ReadBString(data, pos);
          if b.None? { return |data|; }
          pos := b.value.1;
        }
      }
    }
    var b := ReadBString(data, pos);
    if b.None? { return |data|; }
    return b.value.1;
  }

  // ---- the torrent file ----

  /** The bytes whose SHA-1 becomes the info hash, and the name. */
  datatype TorrentInfo = TorrentInfo(hashed: string, name: string)

  function InfoFrom(data: string, pos: nat): Option<(nat, nat)>
    requires pos <= |data|
    decreases |data| - pos
  {
    if pos == |data| || data[pos] == 'e' then None
    else
      match ReadBString(data, pos)
      case None => None
      case Some((key, next)) =>
        var end := Skip(data, next);
        if key == "info" then (if end <= next then None else Some((next, end)))
        else InfoFrom(data, end)
  }

  function NameFrom(data: string, pos: nat): string
    requires pos <= |data|
    decreases |data| - pos
  {
    if pos == |data| then ""
    else
      match ReadBString(data, pos)
      case None => ""
      case Some((key, next)) =>
        if key == "name" then (match ReadBString(data, next) case None => "" case Some((v, _)) => v)
        else
          var end := Skip(data, next);
          if end >= |data| || data[end] == 'e' then "" else NameFrom(data, end)
  }

  function InfoName(info: string): string {
    if info == "" || info[0] != 'd' then "" else NameFrom(info, 1)
  }

  function Parsed(data: string): Option<TorrentInfo> {
    if data == "" || data[0] != 'd' then None
    else
      match InfoFrom(data, 1)
      case None => None
      case Some((a, b)) => if a <= b <= |data| then Some(TorrentInfo(data[a..b], InfoName(data[a..b]))) else None
  }

  lemma InfoInside(data: string, pos: nat)
    requires pos <= |data|
    ensures InfoFrom(data, pos).Some? ==> pos < InfoFrom(data, pos).value.0 < InfoFrom(data, pos).value.1 <= |data|
    decreases |data| - pos
  {
    if pos < |data| && data[pos] != 'e' && ReadBString(data, pos).Some? {
      var (key, next) := ReadBString(data, pos).value;
      if key != "info" { InfoInside(data, Skip(data, next)); }
    }
  }

  /** `parseInfoName`. */
  method ParseInfoName(info: string) returns (name: string)
    ensures name == InfoName(info)
  {
    if |info| == 0 || info[0] != 'd' { return ""; }
    var pos := 1;
    while pos < |info|
      invariant pos <= |info| && NameFrom(info, pos) == InfoName(info)
      decreases |info| - pos
    {
      var b := ReadBString(info, pos);
      if b.None? { return ""; }
      var key := b.value.0;
      pos := b.value.1;
      if key == "name" {
        var v := ReadBString(info, pos);
        return if v.Some? then v.value.0 else "";
      }
      pos := SkipValue(info, pos);
      if pos >= |info| || info[pos] == 'e' { return ""; }
    }
    return "";
  }

  /** `parseTorrent`: the scan stops at the first key `info`. */
  method ParseTorrent(data: string) returns (r: Option<TorrentInfo>)
    ensures r == Parsed(data)
  {
    if |data| == 0 || data[0] != 'd' { return None; }
    InfoInside(data, 1);
    var pos, infoStart, infoEnd := 1, -1, -1;
    while pos < |data| && infoStart < 0
      invariant pos <= |data|
      invariant infoStart < 0 ==> InfoFrom(data, pos) == InfoFrom(data, 1)
      invariant infoStart >= 0 ==> infoStart <= infoEnd <= |data|
      invariant infoStart >= 0 ==>
        InfoFrom(data, 1) == (if infoEnd <= infoStart then None else Some((infoStart, infoEnd)))
      decreases |data| - pos, infoStart < 0
    {
      if data[pos] == 'e' { break; }
      var b := ReadBString(data, pos);
      if b.None? { return None; }
      pos := b.value.1;
      if b.value.0 == "info" {
        infoStart := pos;
        infoEnd := SkipValue(data, pos);
      } else {
        pos := SkipValue(data, pos);
      }
    }
    if infoStart < 0 || infoEnd <= infoStart { return None; }
    var name := ParseInfoName(data[infoStart..infoEnd]);
    return Some(TorrentInfo(data[infoStart..infoEnd], name));
  }

  // ---- the reader undoes the printer ----

  lemma {:induction false} FirstByte(before: string, c: char, rest: string)
    requires c !in before
    ensures IndexByte(before + [c] + rest, c) == |before|
  {
    hide IndexByte;
    var s := before + [c] + rest;
    var i := IndexByte(s, c);
    assert s[|before|] == c;
    assert s == before + ([c] + rest);
    NowhereBefore(s, c, i);
  }

  lemma NowhereBefore(s: string, c: char, i: nat)
    requires i <= |s| && c !in s[..i]
    ensures forall k :: 0 <= k < i ==> s[k] != c
  {
    forall k | 0 <= k < i ensures s[k] != c {
      assert s[..i][k] == s[k];
    }
  }

  lemma AtoiOfDecimal(n: nat)
    ensures Atoi(Decimal(n)) == Some(n)
  {
    ValueOfNumeral(10, n);
  }

  /** `ReadBString` on a length field, a colon and at least that many bytes. */
  lemma {:induction false} ReadField(data: string, pos: nat, digits: string, rest: string, s: string)
    requires pos <= |data| && data[pos..] == digits + [':'] + rest
    requires ':' !in digits && Atoi(digits) == Some(|s|) && s <= rest
    ensures ReadBString(data, pos) == Some((s, pos + |digits| + 1 + |s|))
  {
    hide Atoi, IndexByte;
    FirstByte(digits, ':', rest);
    var colon := pos + |digits|;
    var tail := data[pos..];
    assert data[pos..colon] == tail[..|digits|] == digits;
    assert data[colon + 1..colon + 1 + |s|] == tail[|digits| + 1..][..|s|] == s;
  }

  /** A printed string reads back, whatever follows it. */
  lemma {:induction false} ReadPrinted(pre: string, s: string, post: string)
    ensures ReadBString(pre + EncodeStr(s) + post, |pre|) == Some((s, |pre| + |EncodeStr(s)|))
  {
    hide Atoi, IndexByte, Decimal, ReadBString;
    var data, digits := pre + EncodeStr(s) + post, Decimal(|s|);
    assert data[|pre|..] == digits + [':'] + (s + post);
    AtoiOfDecimal(|s|);
    ReadField(data, |pre|, digits, s + post, s);
  }

  lemma {:induction false} SkipPrintedInt(pre: string, n: int, post: string)
    ensures var v := Encode(Int(n)); SkipInt(pre + v + post, |pre|) == |pre| + |v|
  {
    var v := Encode(Int(n));
    var body := "i" + Signed(n);
    assert 'e' !in body;
    assert (pre + v + post)[|pre|..] == body + ['e'] + post;
    FirstByte(body, 'e', post);
  }

  /** The first byte tells the kind of a printed value. */
  lemma FirstByteOf(v: Value)
    ensures var c := Encode(v)[0];
      match v
      case Int(_) => c == 'i'
      case Str(_) => '0' <= c <= '9'
      case List(_) => c == 'l'
      case Dict(_) => c == 'd'
  {
    if v.Str? { assert Encode(v)[0] == Decimal(|v.s|)[0]; }
  }

  /** Round trip: skipping from the start of a printed value lands exactly past it, for every
      value and whatever surrounds it. */
  lemma {:induction false} SkipPrinted(pre: string, v: Value, post: string)
    ensures Skip(pre + Encode(v) + post, |pre|) == |pre| + |Encode(v)|
    decreases v, 1
  {
    hide ReadBString, SkipInt, SkipContainer, EncodeItems, EncodeEntries, EncodeStr, Signed;
    var data := pre + Encode(v) + post;
    FirstByteOf(v);
    assert data[|pre|] == Encode(v)[0];
    match v
    case Int(n) => SkipPrintedInt(pre, n, post);
    case Str(s) => ReadPrinted(pre, s, post);
    case List(items) =>
      assert data == (pre + "l") + EncodeItems(items) + ("e" + post);
      SkipItems(pre + "l", items, post);
    case Dict(entries) =>
      assert data == (pre + "d") + EncodeEntries(entries) + ("e" + post);
      SkipEntries(pre + "d", entries, post);
  }

  /** One element inside a container. */
  lemma {:induction false} SkipElement(pre: string, v: Value, post: string)
    ensures var data := pre + Encode(v) + post;
      SkipContainer(data, |pre|) == SkipContainer(data, |pre| + |Encode(v)|)
    decreases v, 2
  {
    var data, w := pre + Encode(v) + post, Encode(v);
    FirstByteOf(v);
    assert data[|pre|] == w[0];
    SkipPrinted(pre, v, post);
    if v.Str? {
      assert w == EncodeStr(v.s);
      ReadPrinted(pre, v.s, post);
    }
    ElementStep(data, |pre|, |pre| + |w|);
  }

  lemma ElementStep(data: string, pos: nat, end: nat)
    requires pos < |data| && end <= |data|
    requires Skip(data, pos) == end && data[pos] != 'e'
    requires data[pos] !in "ild" ==> ReadBString(data, pos).Some?
    ensures SkipContainer(data, pos) == SkipContainer(data, end)
  {
    hide ReadBString, SkipInt;
  }

  /** A dictionary key inside a container. */
  lemma {:induction false} SkipKey(pre: string, s: string, post: string)
    ensures var data := pre + EncodeStr(s) + post;
      SkipContainer(data, |pre|) == SkipContainer(data, |pre| + |EncodeStr(s)|)
  {
    hide SkipContainer, ReadBString, EncodeStr;
    ReadPrinted(pre, s, post);
    KeyByte(pre, s, post);
    KeyStep(pre + EncodeStr(s) + post, |pre|, s, |pre| + |EncodeStr(s)|);
  }

  lemma {:induction false} KeyByte(pre: string, s: string, post: string)
    ensures |EncodeStr(s)| > 0 && '0' <= (pre + EncodeStr(s) + post)[|pre|] <= '9'
  {
    hide Decimal;
    assert (pre + EncodeStr(s) + post)[|pre|] == EncodeStr(s)[0] == Decimal(|s|)[0];
  }

  lemma KeyStep(data: string, pos: nat, s: string, end: nat)
    requires pos < end <= |data| && '0' <= data[pos] <= '9'
    requires ReadBString(data, pos) == Some((s, end))
    ensures SkipContainer(data, pos) == SkipContainer(data, end)
  {
    hide ReadBString, Skip, SkipInt;
  }

  lemma SkipClose(pre: string, post: string)
    ensures SkipContainer(pre + ("e" + post), |pre|) == |pre| + 1
  {
    assert (pre + ("e" + post))[|pre|] == 'e';
  }

  lemma {:induction false} SkipItems(pre: string, items: seq<Value>, post: string)
    ensures SkipContainer(pre + EncodeItems(items) + ("e" + post), |pre|) == |pre| + |EncodeItems(items)| + 1
    decreases items, 3
  {
    hide SkipContainer, Skip, Encode;
    var data := pre + EncodeItems(items) + ("e" + post);
    if items == [] {
      assert data == pre + ("e" + post);
      SkipClose(pre, post);
    } else {
      var head, tail := Encode(items[0]), EncodeItems(items[1..]);
      assert data == pre + head + (tail + ("e" + post));
      SkipElement(pre, items[0], tail + ("e" + post));
      assert data == (pre + head) + tail + ("e" + post);
      SkipItems(pre + head, items[1..], post);
    }
  }

  /** A printed dictionary body, cut after its first key and after its first value. */
  lemma {:induction false} FirstEntry(pre: string, entries: seq<Entry>, post: string)
    requires entries != []
    ensures var data := pre + EncodeEntries(entries) + post;
      var key, head, tail := EncodeStr(entries[0].key), Encode(entries[0].value), EncodeEntries(entries[1..]);
      && |EncodeEntries(entries)| == |key| + |head| + |tail|
      && data == pre + key + (head + tail + post)
      && data == (pre + key) + head + (tail + post)
      && data == (pre + key + head) + tail + post
  {
    hide Encode, EncodeStr;
    var key, head, tail := EncodeStr(entries[0].key), Encode(entries[0].value), EncodeEntries(entries[1..]);
    assert EncodeEntries(entries) == key + head + tail;
  }

  lemma {:induction false} SkipEntries(pre: string, entries: seq<Entry>, post: string)
    ensures SkipContainer(pre + EncodeEntries(entries) + ("e" + post), |pre|) == |pre| + |EncodeEntries(entries)| + 1
    decreases entries, 3
  {
    hide SkipContainer, Skip, Encode, EncodeStr;
    var data := pre + EncodeEntries(entries) + ("e" + post);
    if entries == [] {
      assert data == pre + ("e" + post);
      SkipClose(pre, post);
    } else {
      hide EncodeEntries;
      var e, tail := entries[0], EncodeEntries(entries[1..]);
      var key, head := EncodeStr(e.key), Encode(e.value);
      FirstEntry(pre, entries, "e" + post);
      SkipKey(pre, e.key, head + tail + ("e" + post));
      SkipElement(pre + key, e.value, tail + ("e" + post));
      SkipEntries(pre + key + head, entries[1..], post);
    }
  }

  // ---- the info dictionary ----

  /** The first entry with a given key, or -1. */
  function FindEntry(entries: seq<Entry>, key: string): (i: int)
    ensures -1 <= i < |entries|
    ensures i >= 0 ==> entries[i].key == key
    ensures forall k :: 0 <= k < (if i < 0 then |entries| else i) ==> entries[k].key != key
  {
    if entries == [] then -1
    else if entries[0].key == key then 0
    else
      var r := FindEntry(entries[1..], key);
      if r < 0 then -1 else r + 1
  }

  /** The name a reader of the metainfo format would report for an info value. */
  function NameOf(info: Value): string {
    if !info.Dict? then ""
    else
      var i := FindEntry(info.entries, "name");
      if i >= 0 && info.entries[i].value.Str? then info.entries[i].value.s else ""
  }

  lemma InfoStep(data: string, pos: nat, key: string, next: nat, end: nat)
    requires pos < next < end <= |data| && data[pos] != 'e'
    requires ReadBString(data, pos) == Some((key, next)) && Skip(data, next) == end
    ensures InfoFrom(data, pos) == if key == "info" then Some((next, end)) else InfoFrom(data, end)
  {
    hide ReadBString, Skip;
  }

  lemma InfoEnd(data: string, pos: nat)
    requires pos < |data| && data[pos] == 'e'
    ensures InfoFrom(data, pos) == None
  {}

  /** The key and the value at the head of a printed dictionary body. */
  lemma ReadEntry(pre: string, entries: seq<Entry>, post: string)
    requires entries != []
    ensures var data, e := pre + EncodeEntries(entries) + post, entries[0];
      var next := |pre| + |EncodeStr(e.key)|;
      var end := next + |Encode(e.value)|;
      && |pre| < next < end <= |data| && '0' <= data[|pre|] <= '9'
      && ReadBString(data, |pre|) == Some((e.key, next))
      && Skip(data, next) == end && data[next..end] == Encode(e.value)
  {
    hide Skip, Encode, ReadBString, EncodeEntries;
    var data, e, tail := pre + EncodeEntries(entries) + post, entries[0], EncodeEntries(entries[1..]);
    var key, head := EncodeStr(e.key), Encode(e.value);
    FirstEntry(pre, entries, post);
    assert data[|pre|] == Decimal(|e.key|)[0];
    ReadPrinted(pre, e.key, head + tail + post);
    SkipPrinted(pre + key, e.value, tail + post);
    assert data[|pre + key|..|pre + key| + |head|] == head;
  }

  lemma {:induction false} FindInfo(pre: string, entries: seq<Entry>, post: string)
    ensures var data := pre + EncodeEntries(entries) + ("e" + post);
      InfoFrom(data, |pre|).Some? == (FindEntry(entries, "info") >= 0)
    ensures var data, i := pre + EncodeEntries(entries) + ("e" + post), FindEntry(entries, "info");
      i >= 0 ==>
        var (a, b) := InfoFrom(data, |pre|).value;
        a <= b <= |data| && data[a..b] == Encode(entries[i].value)
    decreases |entries|
  {
    hide Skip, Encode, EncodeStr, ReadBString, InfoFrom, EncodeEntries;
    var data := pre + EncodeEntries(entries) + ("e" + post);
    if entries == [] {
      NoEntries();
      assert data[|pre|] == 'e';
      InfoEnd(data, |pre|);
    } else {
      var e := entries[0];
      var key, head := EncodeStr(e.key), Encode(e.value);
      FirstEntry(pre, entries, "e" + post);
      ReadEntry(pre, entries, "e" + post);
      InfoStep(data, |pre|, e.key, |pre| + |key|, |pre| + |key| + |head|);
      if e.key != "info" { FindInfo(pre + key + head, entries[1..], post); }
    }
  }

  /** A value that is no string never reads as one. */
  lemma {:induction false} NoStringHere(pre: string, v: Value, post: string)
    requires !v.Str?
    ensures ReadBString(pre + Encode(v) + post, |pre|) == None
  {
    hide Encode, IndexByte;
    var data := pre + Encode(v) + post;
    FirstByteOf(v);
    assert data[|pre|] == Encode(v)[0];
    assert data[|pre|..][0] == data[|pre|];
    NoNumberHere(data, |pre|);
  }

  lemma NoNumberHere(data: string, pos: nat)
    requires pos < |data| && data[pos] in "ild"
    ensures ReadBString(data, pos) == None
  {
    hide IndexByte, ValueOf;
    var i := IndexByte(data[pos..], ':');
    if i >= 0 {
      assert data[pos..][i] == data[pos + i];
      assert data[pos..pos + i][0] == data[pos];
      assert Atoi(data[pos..pos + i]) == None;
    }
  }

  lemma NameStep(data: string, pos: nat, key: string, next: nat, end: nat)
    requires pos < next < end <= |data|
    requires ReadBString(data, pos) == Some((key, next)) && Skip(data, next) == end
    ensures key == "name" ==>
      NameFrom(data, pos) == match ReadBString(data, next) case None => "" case Some((v, _)) => v
    ensures key != "name" ==>
      NameFrom(data, pos) == if end >= |data| || data[end] == 'e' then "" else NameFrom(data, end)
  {
    hide ReadBString, Skip;
  }

  lemma {:induction false} FindName(pre: string, entries: seq<Entry>)
    requires entries != []
    ensures NameFrom(pre + EncodeEntries(entries) + "e", |pre|) == NameOf(Dict(entries))
    decreases |entries|
  {
    hide Skip, Encode, EncodeStr, ReadBString, NameFrom, EncodeEntries;
    var data, e, rest := pre + EncodeEntries(entries) + "e", entries[0], entries[1..];
    var key, head, tail := EncodeStr(e.key), Encode(e.value), EncodeEntries(rest);
    FirstEntry(pre, entries, "e");
    ReadEntry(pre, entries, "e");
    NameStep(data, |pre|, e.key, |pre| + |key|, |pre| + |key| + |head|);
    if e.key == "name" {
      if e.value.Str? {
        assert head == EncodeStr(e.value.s) by { EncodeOfStr(e.value.s); }
        ReadPrinted(pre + key, e.value.s, tail + "e");
      } else {
        NoStringHere(pre + key, e.value, tail + "e");
      }
    } else if rest == [] {
      assert tail == "" by { NoEntries(); }
      assert data[|pre + key + head|] == 'e';
    } else {
      ReadEntry(pre + key + head, rest, "e");
      FindName(pre + key + head, rest);
    }
  }

  lemma EncodeOfStr(s: string)
    ensures Encode(Str(s)) == EncodeStr(s)
  {}

  lemma NoEntries()
    ensures EncodeEntries([]) == ""
  {}

  lemma {:induction false} PrintedName(info: Value)
    ensures InfoName(Encode(info)) == NameOf(info)
  {
    hide NameFrom, EncodeEntries;
    FirstByteOf(info);
    if info.Dict? {
      var entries := info.entries;
      assert Encode(info) == "d" + EncodeEntries(entries) + "e";
      if entries == [] {
        NoEntries();
        assert Encode(info) == "de";
        NoName();
      } else {
        FindName("d", entries);
      }
    }
  }

  lemma NoName()
    ensures NameFrom("de", 1) == ""
  {
    assert "de"[1..] == "e";
    assert ReadBString("de", 1) == None;
  }

  /** The torrent round trip: for every printed dictionary, followed by anything, the parser
      hashes exactly the printed bytes of the first `info` value and reports its name; without
      an `info` key it reports an error. */
  lemma {:induction false} ParsePrinted(entries: seq<Entry>, post: string)
    ensures var i := FindEntry(entries, "info");
      Parsed(Encode(Dict(entries)) + post)
        == if i < 0 then None else Some(TorrentInfo(Encode(entries[i].value), NameOf(entries[i].value)))
  {
    hide InfoFrom, EncodeEntries, InfoName, NameOf, FindEntry;
    var data := Encode(Dict(entries)) + post;
    assert data == "d" + EncodeEntries(entries) + ("e" + post);
    FindInfo("d", entries, post);
    var i := FindEntry(entries, "info");
    if i >= 0 { PrintedName(entries[i].value); }
  }

  /** A dictionary with every kind of value in it. */
  function Sample(): seq<Entry> {
    [Entry("info", Dict([Entry("files", List([Int(-7)])), Entry("name", Str("x"))]))]
  }

  lemma SmallStrings()
    ensures EncodeStr("info") == "4:info" && EncodeStr("name") == "4:name" && EncodeStr("files") == "5:files"
    ensures EncodeStr("x") == "1:x" && Signed(-7) == "-7"
  {
    hide EncodeStr, Signed;
    OneDigitString("info", '4');
    OneDigitString("name", '4');
    OneDigitString("files", '5');
    OneDigitString("x", '1');
    MinusSeven();
    assert ['4'] + ":" + "info" == "4:info" && ['4'] + ":" + "name" == "4:name" && ['5'] + ":" + "files" == "5:files";
    assert ['1'] + ":" + "x" == "1:x";
  }

  lemma OneDigitString(s: string, c: char)
    requires |s| < 10 && c as int == '0' as int + |s|
    ensures EncodeStr(s) == [c] + ":" + s
  {}

  lemma MinusSeven()
    ensures Signed(-7) == "-7"
  {}

  lemma OneEntry(e: Entry)
    ensures EncodeEntries([e]) == EncodeStr(e.key) + Encode(e.value)
  {
    assert [e][1..] == [];
  }

  lemma TwoEntries(e: Entry, f: Entry)
    ensures EncodeEntries([e, f]) == EncodeStr(e.key) + Encode(e.value) + (EncodeStr(f.key) + Encode(f.value))
  {
    hide Encode, EncodeStr;
    assert [e, f][1..] == [f];
    OneEntry(f);
  }

  lemma SampleList()
    ensures Encode(List([Int(-7)])) == "li-7ee"
  {
    hide Signed;
    MinusSeven();
    assert [Int(-7)][1..] == [];
    assert Encode(Int(-7)) == "i-7e";
  }

  lemma SampleLiterals()
    ensures "d" + ("5:files" + "li-7ee" + ("4:name" + "1:x")) + "e" == "d5:filesli-7ee4:name1:xe"
    ensures "d" + ("4:info" + "d5:filesli-7ee4:name1:xe") + "e" == "d4:infod5:filesli-7ee4:name1:xee"
  {
    InnerLiteral();
    OuterLiteral();
  }

  lemma InnerLiteral()
    ensures "d" + ("5:files" + "li-7ee" + ("4:name" + "1:x")) + "e" == "d5:filesli-7ee4:name1:xe"
  {
    assert "5:files" + "li-7ee" == "5:filesli-7ee";
    assert "4:name" + "1:x" == "4:name1:x";
  }

  lemma OuterLiteral()
    ensures "d" + ("4:info" + "d5:filesli-7ee4:name1:xe") + "e" == "d4:infod5:filesli-7ee4:name1:xee"
  {}

  lemma PrintedInfo()
    ensures Encode(Sample()[0].value) == "d" + ("5:files" + "li-7ee" + ("4:name" + "1:x")) + "e"
  {
    hide EncodeStr, EncodeEntries;
    SmallStrings();
    SampleList();
    var files, name := Entry("files", List([Int(-7)])), Entry("name", Str("x"));
    TwoEntries(files, name);
    assert Encode(name.value) == EncodeStr("x");
  }

  lemma PrintedSample()
    ensures Encode(Sample()[0].value) == "d5:filesli-7ee4:name1:xe"
    ensures Encode(Dict(Sample())) == "d4:infod5:filesli-7ee4:name1:xee"
  {
    hide Encode, EncodeStr, EncodeEntries;
    SampleLiterals();
    PrintedInfo();
    SmallStrings();
    OneEntry(Sample()[0]);
    OneDict(Sample());
  }

  lemma OneDict(entries: seq<Entry>)
    ensures Encode(Dict(entries)) == "d" + EncodeEntries(entries) + "e"
  {}

  /** Read literally: the hashed span and the name. */
  lemma ParsedSample()
    ensures Parsed("d4:infod5:filesli-7ee4:name1:xee") == Some(TorrentInfo("d5:filesli-7ee4:name1:xe", "x"))
  {
    hide Parsed, Encode;
    PrintedSample();
    ParsePrinted(Sample(), "");
    assert "d4:infod5:filesli-7ee4:name1:xee" + "" == "d4:infod5:filesli-7ee4:name1:xee";
  }
}
