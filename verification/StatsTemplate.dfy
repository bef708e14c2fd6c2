/** The template parser as the loops it is. */
module StatsTemplateClass {
  import opened Wrappers
  import opened StatsTemplateModel

  /** unescape: fills a buffer up to the delimiter; an empty text leaves the position where it was. */
  method Unescape(str: string, delim: char) returns (val: Option<string>, next: string)
    ensures val.Some? <==> TakeUntil(str, delim).0 != ""
    ensures val.Some? ==> (val.value, next) == TakeUntil(str, delim)
    ensures val.None? ==> next == str && TakeUntil(str, delim) == ("", str)
  {
    var dst := new char[|str| + 1];
    var idx, rest := 0, str;
    assert dst[..0] + TakeUntil(str, delim).0 == TakeUntil(str, delim).0;
    while rest != "" && (rest[0] != delim || (rest[0] == '\\' && |rest| > 1))
      invariant idx + |rest| <= |str|
      invariant TakeUntil(str, delim) == (dst[..idx] + TakeUntil(rest, delim).0, TakeUntil(rest, delim).1)
      invariant idx == 0 ==> rest == str
      decreases |rest|
    {
      if rest[0] == '\\' && |rest| > 1 {
        rest := rest[1..];
      }
      dst[idx] := rest[0];
      idx, rest := idx + 1, rest[1..];
      assert forall w: string, c: char, t: string :: w + ([c] + t) == (w + [c]) + t;
      assert dst[..idx] == dst[..idx-1] + [dst[idx-1]];
    }
    assert TakeUntil(rest, delim) == ("", rest);
    assert dst[..idx] + "" == dst[..idx];
    if idx == 0 {
      return None, str;
    }
    val, next := Some(dst[..idx]), rest;
  }

  /** The search through the table of directives. */
  method FindDirective(pre: bool, name: string) returns (r: Result<Directive, Error>)
    ensures r == Resolve(pre, name)
  {
    var i := 0;
    while i < |FMT_SPECS|
      invariant i <= |FMT_SPECS| && LookupFrom(name, 0) == LookupFrom(name, i)
    {
      var f := FMT_SPECS[i];
      if f.str == name {
        return if (pre && f.postOnly) || (!pre && f.preOnly) then Err(WrongPhase) else Ok(f.directive);
      }
      i := i + 1;
    }
    r := Err(UnknownDirective);
  }

  class EncStats {
    var components: seq<Component>

    constructor ()
      ensures components == []
    {
      components := [];
    }

    /** One round of the loop of enc_stats_init. */
    method ReadRound(pre: bool, s: string) returns (error: Option<Error>, next: string)
      modifies this
      ensures components == old(components) + ParseRound(pre, s).found
      ensures error == ParseRound(pre, s).error
      ensures error == None ==> next == ParseRound(pre, s).next
    {
      var val, rest := Unescape(s, '{');
      if val.Some? {
        components := components + [Literal(val.value)];
      }
      if rest == "" {
        return None, rest;
      }
      val, rest := Unescape(rest[1..], '}');
      if val.None? {
        return Some(EmptyDirective), rest;
      }
      if rest == "" {
        return Some(MissingBrace), rest;
      }
      components := components + [BLANK];
      var d := FindDirective(pre, val.value);
      if d.Err? {
        return Some(d.error), rest;
      }
      components := components[|components|-1 := Field(d.value)];
      return None, rest[1..];
    }

    /** enc_stats_init, up to the opening of the output file. */
    method EncStatsInit(pre: bool, fmtSpec: string) returns (error: Option<Error>)
      modifies this
      ensures components == old(components) + Parse(pre, fmtSpec).components
      ensures error == Parse(pre, fmtSpec).error
    {
      var next := fmtSpec;
      ghost var all := After(components, Parse(pre, fmtSpec));
      while next != ""
        invariant After(components, Parse(pre, next)) == all
        decreases |next|
      {
        RoundGoesOn(pre, components, next);
        error, next := ReadRound(pre, next);
        if error.Some? {
          return;
        }
      }
      AtEnd(pre, components);
      error := None;
    }
  }

  lemma AtEnd(pre: bool, found: seq<Component>)
    ensures After(found, Parse(pre, "")) == Outcome(found, None)
  {
    assert Parse(pre, "").components == [];
  }

  lemma RoundGoesOn(pre: bool, found: seq<Component>, s: string)
    requires s != ""
    ensures var r := ParseRound(pre, s);
            After(found, Parse(pre, s)) ==
            if r.error.Some? then Outcome(found + r.found, r.error) else After(found + r.found, Parse(pre, r.next))
  {
    var r := ParseRound(pre, s);
    AfterAfter(found, r.found, Parse(pre, r.next));
  }
}
