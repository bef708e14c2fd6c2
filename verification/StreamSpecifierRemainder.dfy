/** What follows a specifier: it is handed back where that is allowed, and a second part of the same sort is refused. */
module StreamSpecifierRemainder {
  import opened Wrappers
  import opened StreamSpecifierModel
  import opened StreamSpecifierRoundTrip

  /** The parts of a specifier but for its ending. */
  function Beginning(pr: Printer, ss: Specifier): seq<string> {
    MediaPart(ss) + (ListPart(pr, ss) + FlagsPart(pr, ss))
  }

  /** Whatever follows, these parts are read first. */
  lemma BeginningIsRead(lib: Lib, pr: Printer, ss: Specifier, more: seq<string>)
    requires Reads(lib, pr) && Sayable(ss)
    ensures ParseParts(lib, Empty(), Join(Beginning(pr, ss) + more)) == ParseParts(lib, Open(ss), Join(more))
  {
    var flagsOn := FlagsPart(pr, ss) + more;
    var listOn := ListPart(pr, ss) + flagsOn;
    var a := Empty().(media := ss.media, noApic := ss.noApic);
    assert Beginning(pr, ss) + more == MediaPart(ss) + listOn;
    MediaPartIsRead(lib, ss, Empty(), listOn);
    ListPartIsRead(lib, pr, ss, a, flagsOn);
    assert a.(list := Open(ss).list, listId := Open(ss).listId) == Open(ss).(disposition := {});
    FlagsPartIsRead(lib, pr, ss, more);
  }

  lemma {:induction false} JoinLast(parts: seq<string>, p: string, rest: string)
    ensures Join(parts + [p + rest]) == Join(parts + [p]) + rest
  {
    if parts != [] {
      JoinLast(parts[1..], p, rest);
      assert (parts + [p + rest])[1..] == parts[1..] + [p + rest];
      assert (parts + [p])[1..] == parts[1..] + [p];
      assert parts[0] + (":" + (Join(parts[1..] + [p]) + rest)) == parts[0] + (":" + Join(parts[1..] + [p])) + rest;
    } else {
      assert [p + rest][1..] == [] && [p][1..] == [];
      assert Join([p + rest]) == p + rest && Join([p]) == p;
    }
  }

  lemma MetaWithValueIsRead(lib: Lib, pr: Printer, ss: Specifier, key: string, value: string, rest: string)
    requires Reads(lib, pr) && Stops(rest)
    ensures ParsePart(lib, ss, ("m:" + pr.token(key) + (":" + pr.token(value))) + rest) ==
            Last(ss.(metaKey := Some(key), metaVal := Some(value)), rest)
  {
    var more := ":" + pr.token(value) + rest;
    var s := ("m:" + pr.token(key) + (":" + pr.token(value))) + rest;
    assert s == "m:" + (pr.token(key) + more) && s[2..] == pr.token(key) + more;
    TokenIsRead(lib, pr, key, more);
    assert more[1..] == pr.token(value) + rest;
    TokenIsRead(lib, pr, value, rest);
  }

  /** The specifier has an ending, after which a ':' begins something else. */
  predicate Ends(ss: Specifier) {
    ss.idx != -1 || ss.list.ListStreamId? || ss.usableOnly || (ss.metaKey.Some? && ss.metaVal.Some?)
  }

  lemma EndingIsRead(lib: Lib, pr: Printer, ss: Specifier, rest: string)
    requires Reads(lib, pr) && Sayable(ss) && Ends(ss) && Stops(rest)
    ensures LastPart(pr, ss) != [] && LastPart(pr, ss)[0] != ""
    ensures ParsePart(lib, Open(ss), LastPart(pr, ss)[0] + rest) == Last(ss, rest)
  {
    var p := LastPart(pr, ss)[0];
    if ss.idx != -1 {
      var n := IndexText(ss.idx);
      NumberIsRead(lib, pr, n, rest);
      assert Open(ss).(idx := ToInt32(n)) == ss;
    } else if ss.list.ListStreamId? {
      StreamIdIsRead(lib, pr, Open(ss), ss.listId, rest);
    } else if ss.usableOnly {
      assert ("u" + rest)[1..] == rest;
    } else {
      MetaWithValueIsRead(lib, pr, Open(ss), ss.metaKey.value, ss.metaVal.value, rest);
    }
  }

  lemma OnlyPart(lib: Lib, a: Specifier, b: Specifier, s: string, rest: string)
    requires s != "" && ParsePart(lib, a, s) == Last(b, rest)
    ensures Join([s]) == s && ParseParts(lib, a, Join([s])) == Some((b, rest))
  {
    assert [s][1..] == [];
  }

  /** The printed text and what follows it, as parts. */
  lemma TextWithRest(pr: Printer, ss: Specifier, rest: string)
    requires |LastPart(pr, ss)| == 1
    ensures Print(pr, ss) + rest == Join(Beginning(pr, ss) + [LastPart(pr, ss)[0] + rest])
  {
    var p := LastPart(pr, ss)[0];
    JoinLast(Beginning(pr, ss), p, rest);
    assert LastPart(pr, ss) == [p];
    assert Beginning(pr, ss) + [p] == MediaPart(ss) + (ListPart(pr, ss) + (FlagsPart(pr, ss) + LastPart(pr, ss)));
  }

  lemma PartsWithRest(lib: Lib, pr: Printer, ss: Specifier, rest: string)
    requires Reads(lib, pr) && Sayable(ss) && Ends(ss) && Stops(rest)
    ensures ParseParts(lib, Empty(), Print(pr, ss) + rest) == Some((ss, rest))
  {
    EndingIsRead(lib, pr, ss, rest);
    var last := LastPart(pr, ss)[0] + rest;
    TextWithRest(pr, ss, rest);
    BeginningIsRead(lib, pr, ss, [last]);
    OnlyPart(lib, Open(ss), ss, last, rest);
  }

  /**
   A specifier with an ending, and something after it: with a remainder allowed it is
   parsed as before and what follows the ':' is handed back; otherwise it is refused.
   */
  lemma RemainderIsKept(lib: Lib, pr: Printer, ss: Specifier, more: string)
    requires Reads(lib, pr) && Sayable(ss) && Ends(ss)
    ensures Parse(lib, Print(pr, ss) + (":" + more), true) == Some(ss.(remainder := Some(more)))
    ensures Parse(lib, Print(pr, ss) + (":" + more), false) == None
  {
    PartsWithRest(lib, pr, ss, ":" + more);
    assert SkipColon(":" + more) == more;
  }

  /** The text begins with a part of a sort that the specifier has already. */
  predicate Repeats(ss: Specifier, s: string) {
    || (ss.media != Unknown && MediaLetter(s))
    || (ss.list != ListAll && (("p:" <= s) || ("g:" <= s) || IdPrefix(s)))
    || (ss.disposition != {} && "disp:" <= s)
  }

  lemma RepeatedPartIsInvalid(lib: Lib, ss: Specifier, s: string)
    requires Repeats(ss, s)
    ensures s != "" && ParsePart(lib, ss, s) == Invalid
  {
  }

  /** A second media type, a second program, group or stream id, and second dispositions are refused. */
  lemma SecondIsRefused(lib: Lib, pr: Printer, ss: Specifier, s: string, allowRemainder: bool)
    requires Reads(lib, pr) && Sayable(ss) && ss == Open(ss) && Repeats(ss, s)
    ensures Parse(lib, Join(Beginning(pr, ss) + [s]), allowRemainder) == None
  {
    RepeatedPartIsInvalid(lib, ss, s);
    BeginningIsRead(lib, pr, ss, [s]);
    assert [s][1..] == [] && Join([s]) == s;
  }
}
