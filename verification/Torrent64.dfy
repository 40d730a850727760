/** The bencode reader in the program's own 64-bit arithmetic: when does it panic, and what does it
    return otherwise? */
module Torrent64 {
  import opened Bytes
  import opened Numerals
  import opened Torrent

  const TWO63: int := 0x8000_0000_0000_0000

  datatype Reading = Found(content: string, next: nat) | Malformed | Overrun

  datatype Outcome<T> = Panicked | Returned(value: T)

  /** The sum of two 64-bit integers. */
  function Add64(a: int, b: int): int {
    (a + b + TWO63) % (2 * TWO63) - TWO63
  }

  /** `readBString` with `Atoi` bounded to 64 bits, a wrapping end, and a slice expression that
      panics on bounds out of order. */
  function ReadBString64(data: string, pos: nat): (r: Reading)
    requires pos <= |data|
    ensures r.Found? ==> pos < r.next <= |data|
  {
    var i := IndexByte(data[pos..], ':');
    if i < 0 then Malformed
    else
      match Atoi(data[pos..pos + i])
      case None => Malformed
      case Some(length) =>
        if !(-TWO63 <= length < TWO63) || length < 0 then Malformed
        else
          var end := Add64(pos + i + 1, length);
          if end > |data| then Malformed
          else if end < pos + i + 1 then Overrun
          else Found(data[pos + i + 1..end], end)
  }

  /** The length written at `pos` is a 64-bit integer that no longer is one once the position after
      the colon is added. */
  predicate Overflows(data: string, pos: nat) {
    && pos <= |data|
    && var i := IndexByte(data[pos..], ':');
       i >= 0
       && var length := Atoi(data[pos..pos + i]);
          length.Some? && TWO63 - (pos + i + 1) <= length.value < TWO63
  }

  function Reads(data: string, pos: nat): Reading
    requires pos <= |data|
  {
    match ReadBString(data, pos)
    case None => Malformed
    case Some((content, next)) => Found(content, next)
  }

  /** A read panics exactly on such a length; everything else reads as without bounds. */
  lemma ReadPanicsExactly(data: string, pos: nat)
    requires pos <= |data| < TWO63
    ensures ReadBString64(data, pos) == if Overflows(data, pos) then Overrun else Reads(data, pos)
    ensures Overflows(data, pos) ==> ReadBString(data, pos).None?
  {
    hide Atoi, Add64;
    var i := IndexByte(data[pos..], ':');
    if i >= 0 {
      var length := Atoi(data[pos..pos + i]);
      if length.Some? && 0 <= length.value < TWO63 { Wraps(pos + i + 1, length.value); }
    }
  }

  lemma Wraps(a: nat, b: nat)
    requires a < TWO63 + 1 && b < TWO63
    ensures Add64(a, b) == if a + b < TWO63 then a + b else a + b - 2 * TWO63
  {}

  // ---- the parser ----

  /** `skipValue`. */
  function Skip64(data: string, pos: nat): (r: Outcome<nat>)
    requires pos <= |data|
    ensures r.Returned? ==> pos <= r.value <= |data| && (pos < |data| ==> pos < r.value)
    decreases |data| - pos, 0
  {
    if pos == |data| then Returned(pos)
    else if data[pos] == 'i' then Returned(SkipInt(data, pos))
    else if data[pos] == 'l' || data[pos] == 'd' then SkipContainer64(data, pos + 1)
    else
      match ReadBString64(data, pos)
      case Overrun => Panicked
      case Malformed => Returned(|data|)
      case Found(_, next) => Returned(next)
  }

  function SkipContainer64(data: string, pos: nat): (r: Outcome<nat>)
    requires pos <= |data|
    ensures r.Returned? ==> pos <= r.value <= |data| && (pos < |data| ==> pos < r.value)
    decreases |data| - pos, 1
  {
    if pos == |data| then Returned(|data|)
    else if data[pos] == 'e' then Returned(pos + 1)
    else if data[pos] == 'i' then SkipContainer64(data, SkipInt(data, pos))
    else if data[pos] == 'l' || data[pos] == 'd' then
      var r := Skip64(data, pos);
      if r.Panicked? then r else SkipContainer64(data, r.value)
    else
      match ReadBString64(data, pos)
      case Overrun => Panicked
      case Malformed => Returned(|data|)
      case Found(_, next) => SkipContainer64(data, next)
  }

  function InfoFrom64(data: string, pos: nat): Outcome<Option<(nat, nat)>>
    requires pos <= |data|
    decreases |data| - pos
  {
    if pos == |data| || data[pos] == 'e' then Returned(None)
    else
      match ReadBString64(data, pos)
      case Overrun => Panicked
      case Malformed => Returned(None)
      case Found(key, next) =>
        var end := Skip64(data, next);
        if end.Panicked? then Panicked
        else if key == "info" then Returned(if end.value <= next then None else Some((next, end.value)))
        else InfoFrom64(data, end.value)
  }

  function NameFrom64(data: string, pos: nat): Outcome<string>
    requires pos <= |data|
    decreases |data| - pos
  {
    if pos == |data| then Returned("")
    else
      match ReadBString64(data, pos)
      case Overrun => Panicked
      case Malformed => Returned("")
      case Found(key, next) =>
        if key == "name" then
          match ReadBString64(data, next)
          case Overrun => Panicked
          case Malformed => Returned("")
          case Found(v, _) => Returned(v)
        else
          var end := Skip64(data, next);
          if end.Panicked? then Panicked
          else if end.value >= |data| || data[end.value] == 'e' then Returned("")
          else NameFrom64(data, end.value)
  }

  function InfoName64(info: string): Outcome<string> {
    if info == "" || info[0] != 'd' then Returned("") else NameFrom64(info, 1)
  }

  /** `parseTorrent`. */
  function Parsed64(data: string): Outcome<Option<TorrentInfo>> {
    if data == "" || data[0] != 'd' then Returned(None)
    else
      match InfoFrom64(data, 1)
      case Panicked => Panicked
      case Returned(None) => Returned(None)
      case Returned(Some((a, b))) =>
        if a <= b <= |data| then
          var name := InfoName64(data[a..b]);
          if name.Panicked? then Panicked else Returned(Some(TorrentInfo(data[a..b], name.value)))
        else Returned(None)
  }

  // ---- where the parser reads a length ----

  function SkipReads(data: string, pos: nat): set<nat>
    requires pos <= |data|
    decreases |data| - pos, 0
  {
    if pos == |data| || data[pos] == 'i' then {}
    else if data[pos] == 'l' || data[pos] == 'd' then ContainerReads(data, pos + 1)
    else {pos}
  }

  function ContainerReads(data: string, pos: nat): set<nat>
    requires pos <= |data|
    decreases |data| - pos, 1
  {
    if pos == |data| || data[pos] == 'e' then {}
    else if data[pos] == 'i' then ContainerReads(data, SkipInt(data, pos))
    else if data[pos] == 'l' || data[pos] == 'd' then SkipReads(data, pos) + ContainerReads(data, Skip(data, pos))
    else {pos} + (match ReadBString(data, pos) case None => {} case Some((_, next)) => ContainerReads(data, next))
  }

  function InfoReads(data: string, pos: nat): set<nat>
    requires pos <= |data|
    decreases |data| - pos
  {
    if pos == |data| || data[pos] == 'e' then {}
    else
      {pos}
        + match ReadBString(data, pos)
          case None => {}
          case Some((key, next)) =>
            SkipReads(data, next) + (if key == "info" then {} else InfoReads(data, Skip(data, next)))
  }

  function NameReads(data: string, pos: nat): set<nat>
    requires pos <= |data|
    decreases |data| - pos
  {
    if pos == |data| then {}
    else
      {pos}
        + match ReadBString(data, pos)
          case None => {}
          case Some((key, next)) =>
            if key == "name" then {next}
            else
              var end := Skip(data, next);
              SkipReads(data, next) + (if end >= |data| || data[end] == 'e' then {} else NameReads(data, end))
  }

  ghost predicate Trips(data: string, places: set<nat>) {
    exists p :: p in places && Overflows(data, p)
  }

  /** A read overflows: one of those that find the info value, or one that looks for the name in it. */
  ghost predicate ParseTrips(data: string) {
    && data != "" && data[0] == 'd'
    && (Trips(data, InfoReads(data, 1)) || (InfoFrom(data, 1).Some? && NameTrips(data)))
  }

  ghost predicate NameTrips(data: string)
    requires data != "" && InfoFrom(data, 1).Some?
  {
    var (a, b) := InfoFrom(data, 1).value;
    a < b <= |data| && data[a] == 'd' && Trips(data[a..b], NameReads(data[a..b], 1))
  }

  lemma TripsOfUnion(data: string, a: set<nat>, b: set<nat>)
    ensures Trips(data, a + b) <==> Trips(data, a) || Trips(data, b)
  {}

  lemma TripsOfOne(data: string, p: nat)
    ensures Trips(data, {p}) <==> Overflows(data, p)
    ensures !Trips(data, {})
  {
    assert p in {p};
  }

  ghost function Verdict<T>(trips: bool, value: T): Outcome<T> {
    if trips then Panicked else Returned(value)
  }

  lemma {:induction false} SkipPanicsExactly(data: string, pos: nat)
    requires pos <= |data| < TWO63
    ensures Skip64(data, pos) == Verdict(Trips(data, SkipReads(data, pos)), Skip(data, pos))
    decreases |data| - pos, 0
  {
    hide Trips, Overflows, ReadBString64, ReadBString;
    TripsOfOne(data, pos);
    if pos < |data| && data[pos] != 'i' {
      if data[pos] == 'l' || data[pos] == 'd' {
        ContainerPanicsExactly(data, pos + 1);
      } else {
        ReadPanicsExactly(data, pos);
      }
    }
  }

  lemma {:induction false} ContainerPanicsExactly(data: string, pos: nat)
    requires pos <= |data| < TWO63
    ensures SkipContainer64(data, pos) == Verdict(Trips(data, ContainerReads(data, pos)), SkipContainer(data, pos))
    decreases |data| - pos, 1
  {
    hide Trips, Overflows, ReadBString64, ReadBString, SkipInt;
    TripsOfOne(data, pos);
    if pos < |data| && data[pos] != 'e' {
      if data[pos] == 'i' {
        ContainerPanicsExactly(data, SkipInt(data, pos));
      } else if data[pos] == 'l' || data[pos] == 'd' {
        SkipPanicsExactly(data, pos);
        ContainerPanicsExactly(data, Skip(data, pos));
        TripsOfUnion(data, SkipReads(data, pos), ContainerReads(data, Skip(data, pos)));
      } else {
        ReadPanicsExactly(data, pos);
        var b := ReadBString(data, pos);
        if b.Some? {
          ContainerPanicsExactly(data, b.value.1);
          TripsOfUnion(data, {pos}, ContainerReads(data, b.value.1));
        } else {
          assert {pos} + {} == {pos};
        }
      }
    }
  }

  lemma {:induction false} InfoPanicsExactly(data: string, pos: nat)
    requires pos <= |data| < TWO63
    ensures InfoFrom64(data, pos) == Verdict(Trips(data, InfoReads(data, pos)), InfoFrom(data, pos))
    decreases |data| - pos
  {
    hide Trips, Overflows, ReadBString64, ReadBString, Skip64, Skip, SkipReads;
    TripsOfOne(data, pos);
    if pos < |data| && data[pos] != 'e' {
      ReadPanicsExactly(data, pos);
      var b := ReadBString(data, pos);
      if b.Some? {
        var (key, next) := b.value;
        var rest := if key == "info" then {} else InfoReads(data, Skip(data, next));
        SkipPanicsExactly(data, next);
        TripsOfUnion(data, SkipReads(data, next), rest);
        TripsOfUnion(data, {pos}, SkipReads(data, next) + rest);
        if key != "info" { InfoPanicsExactly(data, Skip(data, next)); }
      } else {
        assert {pos} + {} == {pos};
      }
    }
  }

  lemma {:induction false} NamePanicsExactly(data: string, pos: nat)
    requires pos <= |data| < TWO63
    ensures NameFrom64(data, pos) == Verdict(Trips(data, NameReads(data, pos)), NameFrom(data, pos))
    decreases |data| - pos
  {
    hide Trips, Overflows, ReadBString64, ReadBString, Skip64, Skip, SkipReads;
    TripsOfOne(data, pos);
    if pos < |data| {
      ReadPanicsExactly(data, pos);
      var b := ReadBString(data, pos);
      if b.Some? {
        var (key, next) := b.value;
        if key == "name" {
          ReadPanicsExactly(data, next);
          TripsOfOne(data, next);
          TripsOfUnion(data, {pos}, {next});
        } else {
          var end := Skip(data, next);
          var rest := if end >= |data| || data[end] == 'e' then {} else NameReads(data, end);
          SkipPanicsExactly(data, next);
          TripsOfUnion(data, SkipReads(data, next), rest);
          TripsOfUnion(data, {pos}, SkipReads(data, next) + rest);
          if !(end >= |data| || data[end] == 'e') { NamePanicsExactly(data, end); }
        }
      } else {
        assert {pos} + {} == {pos};
      }
    }
  }

  /** The whole parse panics exactly when one of the lengths it reads overflows, and otherwise
      returns what the reading without bounds returns. */
  lemma ParsePanicsExactly(data: string)
    requires |data| < TWO63
    ensures Parsed64(data) == if ParseTrips(data) then Panicked else Returned(Parsed(data))
  {
    hide Trips, InfoReads, NameReads, InfoFrom64, NameFrom64, InfoFrom, NameFrom;
    if data != "" && data[0] == 'd' {
      InfoPanicsExactly(data, 1);
      InfoInside(data, 1);
      if InfoFrom(data, 1).Some? {
        var (a, b) := InfoFrom(data, 1).value;
        NamePanicsExactly(data[a..b], 1);
      }
    }
  }

  // ---- an input ----

  /** A dictionary whose first key claims the largest length. */
  lemma LargestLengthPanics()
    ensures Parsed64("d" + Decimal(TWO63 - 1) + ":") == Panicked
  {
    var n: nat := TWO63 - 1;
    var s := Decimal(n);
    var data := "d" + s + ":";
    ValueOfNumeral(10, n);
    ShortNumeral(n);
    assert Atoi(s) == Some(n);
    assert data[1..] == s + ":" && data[1..1 + |s|] == s && data[1] == s[0];
    Wraps(|s| + 2, n);
    assert ReadBString64(data, 1) == Overrun;
  }

  lemma {:induction false} ShortNumeral(n: nat)
    requires n > 0
    ensures |Decimal(n)| <= 1 + n / 10
  {
    if n >= 10 { ShortNumeral(n / 10); }
  }

}
