/** Every specifier that can be said has a text, and parsing that text gives it back. */
module StreamSpecifierRoundTrip {
  import opened Wrappers
  import opened StreamSpecifierModel
  import opened StreamSpecifierCode

  /** How numbers, sets of flags and tokens are written. */
  datatype Printer = Printer(number: int -> string, flags: Flags -> string, token: string -> string)

  predicate Int64(v: int) { -0x8000_0000_0000_0000 <= v < 0x8000_0000_0000_0000 }

  /** The end of a part of a specifier. */
  predicate Stops(rest: string) { rest == "" || rest[0] == ':' }

  predicate FlagChar(c: char) { Alnum(c) || c == '_' || c == '+' }

  predicate AllFlagChars(t: string) { forall i :: 0 <= i < |t| ==> FlagChar(t[i]) }

  /** The library calls read what the printer writes, up to the end of the part. */
  ghost predicate Reads(lib: Lib, pr: Printer) {
    && (forall v, rest :: Int64(v) && Stops(rest) ==> lib.strtol(pr.number(v) + rest) == (v, |pr.number(v)|))
    && (forall v :: pr.number(v) != "" && pr.number(v)[0] !in "#i" && (v >= 0 ==> Digit(pr.number(v)[0])))
    && (forall f: Flags :: lib.evalFlags(pr.flags(f)) == Some(f) && AllFlagChars(pr.flags(f)))
    && (forall t, rest :: Stops(rest) ==> lib.token(pr.token(t) + rest) == (t, |pr.token(t)|))
  }

  /** At most one ending: an index, a stream id, metadata or "usable". */
  predicate OneEnding(ss: Specifier) {
    && (ss.idx != -1 ==> !ss.list.ListStreamId? && ss.metaKey == None && !ss.usableOnly)
    && (ss.list.ListStreamId? ==> ss.metaKey == None && !ss.usableOnly)
    && (ss.metaKey.Some? ==> !ss.usableOnly)
    && (ss.metaVal.Some? ==> ss.metaKey.Some?)
  }

  predicate Sayable(ss: Specifier) {
    && OneEnding(ss) && ss.remainder == None
    && -0x8000_0000 <= ss.idx < 0x8000_0000
    && Int64(ss.listId) && (ss.list.ListAll? ==> ss.listId == 0)
    && (ss.noApic ==> ss.media == Video)
  }

  /** strtol saturates: its result fits 64 bits. */
  ghost predicate InRange(lib: Lib) { forall t :: Int64(lib.strtol(t).0) }

  // ------------------------------------------------------------------ printing

  function Letter(media: MediaType, noApic: bool): string {
    match media
    case Video => if noApic then "V" else "v"
    case Audio => "a"
    case Subtitle => "s"
    case Data => "d"
    case _ => "t"
  }

  function MediaPart(ss: Specifier): seq<string> {
    if ss.media == Unknown then [] else [Letter(ss.media, ss.noApic)]
  }

  function ListPart(pr: Printer, ss: Specifier): seq<string> {
    match ss.list
    case ListProgram => ["p:" + pr.number(ss.listId)]
    case ListGroupIdx => ["g:" + pr.number(ss.listId)]
    case ListGroupId => ["g:#" + pr.number(ss.listId)]
    case _ => []
  }

  function FlagsPart(pr: Printer, ss: Specifier): seq<string> {
    if ss.disposition == {} then [] else ["disp:" + pr.flags(ss.disposition)]
  }

  /** The number whose lower 32 bits are the index. */
  function IndexText(idx: int): int { if idx >= 0 then idx else idx + 0x1_0000_0000 }

  function LastPart(pr: Printer, ss: Specifier): seq<string> {
    if ss.idx != -1 then [pr.number(IndexText(ss.idx))]
    else if ss.list.ListStreamId? then ["#" + pr.number(ss.listId)]
    else if ss.usableOnly then ["u"]
    else if ss.metaKey.Some? then
      ["m:" + pr.token(ss.metaKey.value) + if ss.metaVal.Some? then ":" + pr.token(ss.metaVal.value) else ""]
    else []
  }

  /** The parts with a ':' between them. */
  function Join(parts: seq<string>): string
    decreases |parts|, 0
  {
    if parts == [] then "" else parts[0] + Tail(parts[1..])
  }

  function Tail(parts: seq<string>): string
    decreases |parts|, 1
  {
    if parts == [] then "" else ":" + Join(parts)
  }

  function Print(pr: Printer, ss: Specifier): string {
    Join(MediaPart(ss) + (ListPart(pr, ss) + (FlagsPart(pr, ss) + LastPart(pr, ss))))
  }

  // ------------------------------------------------------------------- parsing

  /** A part that is read as `more` in front of anything leaves the rest of the parts to be read. */
  lemma PartIsRead(lib: Lib, a: Specifier, b: Specifier, p: string, parts: seq<string>)
    requires p != "" && ParsePart(lib, a, p + Tail(parts)) == More(b, Tail(parts))
    ensures ParseParts(lib, a, Join([p] + parts)) == ParseParts(lib, b, Join(parts))
  {
    assert ([p] + parts)[1..] == parts;
    if parts == [] {
      assert SkipColon(Tail(parts)) == Join(parts);
    } else {
      assert SkipColon(":" + Join(parts)) == Join(parts);
    }
  }

  lemma TailStops(parts: seq<string>)
    ensures Stops(Tail(parts))
  {
  }

  lemma NumberIsRead(lib: Lib, pr: Printer, v: int, rest: string)
    requires Reads(lib, pr) && Int64(v) && Stops(rest)
    ensures Number(lib, pr.number(v) + rest) == (v, |pr.number(v)|) && |pr.number(v)| > 0
    ensures (pr.number(v) + rest)[|pr.number(v)|..] == rest
  {
    assert lib.strtol(pr.number(v) + rest) == (v, |pr.number(v)|);
  }

  lemma TokenIsRead(lib: Lib, pr: Printer, t: string, rest: string)
    requires Reads(lib, pr) && Stops(rest)
    ensures Token(lib, pr.token(t) + rest) == (t, |pr.token(t)|)
    ensures (pr.token(t) + rest)[|pr.token(t)|..] == rest
  {
    assert lib.token(pr.token(t) + rest) == (t, |pr.token(t)|);
  }

  /** A designator written after its prefix. */
  lemma DesignatorIsRead(
      lib: Lib, pr: Printer, ss: Specifier, list: StreamList, prefix: string, v: int, rest: string, last: bool)
    requires Reads(lib, pr) && Int64(v) && Stops(rest) && ss.list == ListAll
    ensures var s := prefix + pr.number(v) + rest;
            Designator(lib, ss, list, s, |prefix|, last) ==
            if last then Last(ss.(list := list, listId := v), rest) else More(ss.(list := list, listId := v), rest)
  {
    var s := prefix + pr.number(v) + rest;
    assert s[|prefix|..] == pr.number(v) + rest;
    NumberIsRead(lib, pr, v, rest);
  }

  lemma MediaIsRead(lib: Lib, ss: Specifier, media: MediaType, noApic: bool, rest: string)
    requires media != Unknown && (noApic ==> media == Video) && Stops(rest)
    requires ss.media == Unknown && !ss.noApic
    ensures ParsePart(lib, ss, Letter(media, noApic) + rest) == More(ss.(media := media, noApic := noApic), rest)
  {
    var s := Letter(media, noApic) + rest;
    assert s[1..] == rest;
    assert CharAt(s, 1) == CharAt(rest, 0);
  }

  lemma ProgramIsRead(lib: Lib, pr: Printer, ss: Specifier, v: int, rest: string)
    requires Reads(lib, pr) && Int64(v) && Stops(rest) && ss.list == ListAll
    ensures ParsePart(lib, ss, "p:" + pr.number(v) + rest) == More(ss.(list := ListProgram, listId := v), rest)
  {
    DesignatorIsRead(lib, pr, ss, ListProgram, "p:", v, rest, false);
  }

  lemma GroupIdxIsRead(lib: Lib, pr: Printer, ss: Specifier, v: int, rest: string)
    requires Reads(lib, pr) && Int64(v) && Stops(rest) && ss.list == ListAll
    ensures ParsePart(lib, ss, "g:" + pr.number(v) + rest) == More(ss.(list := ListGroupIdx, listId := v), rest)
  {
    var s := "g:" + pr.number(v) + rest;
    assert s[2..] == pr.number(v) + rest;
    assert s[2] == pr.number(v)[0];
    DesignatorIsRead(lib, pr, ss, ListGroupIdx, "g:", v, rest, false);
  }

  lemma GroupIdIsRead(lib: Lib, pr: Printer, ss: Specifier, v: int, rest: string)
    requires Reads(lib, pr) && Int64(v) && Stops(rest) && ss.list == ListAll
    ensures ParsePart(lib, ss, "g:#" + pr.number(v) + rest) == More(ss.(list := ListGroupId, listId := v), rest)
  {
    var s := "g:#" + (pr.number(v) + rest);
    assert s == "g:#" + pr.number(v) + rest;
    assert s[2] == '#' && s[2..][0] == s[2];
    DesignatorIsRead(lib, pr, ss, ListGroupId, "g:#", v, rest, false);
  }

  lemma StreamIdIsRead(lib: Lib, pr: Printer, ss: Specifier, v: int, rest: string)
    requires Reads(lib, pr) && Int64(v) && Stops(rest) && ss.list == ListAll
    ensures ParsePart(lib, ss, "#" + pr.number(v) + rest) == Last(ss.(list := ListStreamId, listId := v), rest)
  {
    DesignatorIsRead(lib, pr, ss, ListStreamId, "#", v, rest, true);
  }

  lemma {:induction false} FlagsLengthIs(t: string, rest: string)
    requires Stops(rest) && AllFlagChars(t)
    ensures FlagsLength(t + rest) == |t|
  {
    if t == "" {
      assert t + rest == rest;
    } else {
      assert (t + rest)[1..] == t[1..] + rest;
      FlagsLengthIs(t[1..], rest);
    }
  }

  lemma FlagsAreRead(lib: Lib, pr: Printer, ss: Specifier, f: Flags, rest: string)
    requires Reads(lib, pr) && Stops(rest) && ss.disposition == {}
    ensures ParsePart(lib, ss, "disp:" + pr.flags(f) + rest) == More(ss.(disposition := f), rest)
  {
    var t := pr.flags(f);
    var s := "disp:" + t + rest;
    assert s[..5] == "disp:" && s[5..] == t + rest;
    FlagsLengthIs(t, rest);
    assert s[5..5+|t|] == t && s[5+|t|..] == rest;
    assert !MediaLetter(s);
  }

  lemma MetaIsRead(lib: Lib, pr: Printer, ss: Specifier, key: string, val: Option<string>)
    requires Reads(lib, pr) && ss.metaVal == None
    ensures var s := "m:" + pr.token(key) + if val.Some? then ":" + pr.token(val.value) else "";
            ParsePart(lib, ss, s) == Last(ss.(metaKey := Some(key), metaVal := val), "")
  {
    var more := if val.Some? then ":" + pr.token(val.value) else "";
    var s := "m:" + pr.token(key) + more;
    assert s[2..] == pr.token(key) + more;
    TokenIsRead(lib, pr, key, more);
    if val.Some? {
      assert more[1..] == pr.token(val.value) + "";
      TokenIsRead(lib, pr, val.value, "");
    }
  }

  /** The part that ends a specifier completes it. */
  lemma LastIsRead(lib: Lib, pr: Printer, ss: Specifier)
    requires Reads(lib, pr) && Sayable(ss)
    ensures ParseParts(lib, Open(ss), Join(LastPart(pr, ss))) == Some((ss, ""))
  {
    var last := LastPart(pr, ss);
    if last != [] {
      var p := last[0];
      assert Join(last) == p + "" == p;
      if ss.idx != -1 {
        var n := IndexText(ss.idx);
        NumberIsRead(lib, pr, n, "");
        assert pr.number(n) + "" == p;
        assert Open(ss).(idx := ToInt32(n)) == ss;
      } else if ss.list.ListStreamId? {
        StreamIdIsRead(lib, pr, Open(ss), ss.listId, "");
        assert "#" + pr.number(ss.listId) + "" == p;
      } else if !ss.usableOnly {
        MetaIsRead(lib, pr, Open(ss), ss.metaKey.value, ss.metaVal);
      }
      assert ParsePart(lib, Open(ss), p) == Last(ss, "");
    }
  }

  /** The specifier without its ending. */
  function Open(ss: Specifier): Specifier {
    ss.(idx := -1, usableOnly := false, metaKey := None, metaVal := None,
        list := if ss.list.ListStreamId? then ListAll else ss.list,
        listId := if ss.list.ListStreamId? then 0 else ss.listId)
  }

  lemma FlagsPartIsRead(lib: Lib, pr: Printer, ss: Specifier, parts: seq<string>)
    requires Reads(lib, pr)
    ensures ParseParts(lib, Open(ss).(disposition := {}), Join(FlagsPart(pr, ss) + parts)) ==
            ParseParts(lib, Open(ss), Join(parts))
  {
    if ss.disposition == {} {
      assert FlagsPart(pr, ss) + parts == parts;
    } else {
      TailStops(parts);
      FlagsAreRead(lib, pr, Open(ss).(disposition := {}), ss.disposition, Tail(parts));
      PartIsRead(lib, Open(ss).(disposition := {}), Open(ss), "disp:" + pr.flags(ss.disposition), parts);
    }
  }

  lemma ListPartIsRead(lib: Lib, pr: Printer, ss: Specifier, a: Specifier, parts: seq<string>)
    requires Reads(lib, pr) && Sayable(ss) && a.list == ListAll && a.listId == 0
    ensures ParseParts(lib, a, Join(ListPart(pr, ss) + parts)) ==
            ParseParts(lib, a.(list := Open(ss).list, listId := Open(ss).listId), Join(parts))
  {
    TailStops(parts);
    var b := a.(list := ss.list, listId := ss.listId);
    if ss.list.ListProgram? {
      ProgramIsRead(lib, pr, a, ss.listId, Tail(parts));
      PartIsRead(lib, a, b, "p:" + pr.number(ss.listId), parts);
    } else if ss.list.ListGroupIdx? {
      GroupIdxIsRead(lib, pr, a, ss.listId, Tail(parts));
      PartIsRead(lib, a, b, "g:" + pr.number(ss.listId), parts);
    } else if ss.list.ListGroupId? {
      GroupIdIsRead(lib, pr, a, ss.listId, Tail(parts));
      PartIsRead(lib, a, b, "g:#" + pr.number(ss.listId), parts);
    } else {
      assert ListPart(pr, ss) + parts == parts;
    }
  }

  lemma MediaPartIsRead(lib: Lib, ss: Specifier, a: Specifier, parts: seq<string>)
    requires Sayable(ss) && a.media == Unknown && !a.noApic
    ensures ParseParts(lib, a, Join(MediaPart(ss) + parts)) ==
            ParseParts(lib, a.(media := ss.media, noApic := ss.noApic), Join(parts))
  {
    if ss.media == Unknown {
      assert MediaPart(ss) + parts == parts;
    } else {
      TailStops(parts);
      MediaIsRead(lib, a, ss.media, ss.noApic, Tail(parts));
      PartIsRead(lib, a, a.(media := ss.media, noApic := ss.noApic), Letter(ss.media, ss.noApic), parts);
    }
  }

  /** Printing and parsing give the specifier back. */
  lemma RoundTrip(lib: Lib, pr: Printer, ss: Specifier)
    requires Reads(lib, pr) && Sayable(ss)
    ensures Parse(lib, Print(pr, ss), false) == Some(ss)
  {
    var last := LastPart(pr, ss);
    var flagsOn := FlagsPart(pr, ss) + last;
    var listOn := ListPart(pr, ss) + flagsOn;
    var a := Empty().(media := ss.media, noApic := ss.noApic);
    MediaPartIsRead(lib, ss, Empty(), listOn);
    ListPartIsRead(lib, pr, ss, a, flagsOn);
    assert a.(list := Open(ss).list, listId := Open(ss).listId) == Open(ss).(disposition := {});
    FlagsPartIsRead(lib, pr, ss, last);
    LastIsRead(lib, pr, ss);
  }

  // --------------------------------------------------------------- the converse

  /** What holds while the parser goes on. */
  predicate Unended(ss: Specifier) {
    Sayable(ss) && ss == Open(ss)
  }

  lemma PartKeepsSayable(lib: Lib, ss: Specifier, s: string)
    requires s != "" && Unended(ss) && InRange(lib)
    ensures var p := ParsePart(lib, ss, s);
            && (p.More? ==> Unended(p.ss))
            && (p.Last? ==> Sayable(p.ss))
  {
  }

  lemma {:induction false} PartsKeepSayable(lib: Lib, ss: Specifier, s: string)
    requires Unended(ss) && InRange(lib)
    ensures var r := ParseParts(lib, ss, s); r.Some? ==> Sayable(r.value.0)
    decreases |s|
  {
    if s != "" {
      PartKeepsSayable(lib, ss, s);
      var p := ParsePart(lib, ss, s);
      if p.More? {
        PartsKeepSayable(lib, p.ss, SkipColon(p.rest));
      }
    }
  }

  /** A parsed specifier, printed and parsed again, is the same. */
  lemma ReprintIsEquivalent(lib: Lib, pr: Printer, s: string)
    requires Reads(lib, pr) && InRange(lib)
    requires Parse(lib, s, false).Some?
    ensures Parse(lib, Print(pr, Parse(lib, s, false).value), false) == Parse(lib, s, false)
  {
    PartsKeepSayable(lib, Empty(), s);
    RoundTrip(lib, pr, Parse(lib, s, false).value);
  }

  // ------------------------------------------------------------- a wide index

  /** A specifier that is only a number keeps it as its index exactly when it fits 32 bits. */
  lemma IndexKeptIff(lib: Lib, s: string)
    requires s != "" && Digit(s[0]) && Number(lib, s).1 == |s|
    ensures Parse(lib, s, false).Some?
    ensures Parse(lib, s, false).value.idx == Number(lib, s).0 <==> -0x8000_0000 <= Number(lib, s).0 < 0x8000_0000
  {
    assert s[|s|..] == "";
  }

  /** One that wraps to a negative number is no index at all: the specifier matches every stream. */
  lemma WrappedIndexMatchesAll(lib: Lib, s: string, c: Context, st: nat)
    requires s != "" && Digit(s[0]) && Number(lib, s).1 == |s| && ToInt32(Number(lib, s).0) < 0
    requires st < |c.streams|
    ensures Parse(lib, s, false).Some? && Matches(Parse(lib, s, false).value, c, st)
  {
    assert s[|s|..] == "";
    var ss := Parse(lib, s, false).value;
    assert ss == Empty().(idx := ToInt32(Number(lib, s).0));
    FilteredMembers(ss, c.streams, Range(|c.streams|), st);
    assert Range(|c.streams|)[st] == st;
  }
}
