/** Templates that are refused: which error is reported, and what was stored before it. */
module StatsTemplateErrors {
  import opened Wrappers
  import opened StatsTemplateModel
  import opened StatsTemplateTheorems

  predicate Known(name: string) { exists d: Directive :: Name(d) == name }

  /** A name is refused for the phase if it is a directive's, and as unknown if it is nobody's. */
  lemma RefusedName(pre: bool, name: string)
    ensures Resolve(pre, name) == Err(UnknownDirective) <==> !Known(name)
    ensures Resolve(pre, name) == Err(WrongPhase) <==> exists d: Directive :: Name(d) == name && !Allowed(pre, d)
  {
    LookupIsSound(name, 0);
    if LookupFrom(name, 0).Some? {
      var k :| 0 <= k < |FMT_SPECS| && LookupFrom(name, 0) == Some(FMT_SPECS[k]) && FMT_SPECS[k].str == name;
      EntryIsRight(k);
      assert Name(FMT_SPECS[k].directive) == name;
    }
    forall d: Directive | Name(d) == name
      ensures LookupFrom(name, 0).Some? && LookupFrom(name, 0).value.directive == d
    {
      PositionHolds(d);
      LookupFindsFirst(name, 0, Position(d));
      var k :| 0 <= k < |FMT_SPECS| && LookupFrom(name, 0) == Some(FMT_SPECS[k]) && FMT_SPECS[k].str == name;
      EntryIsRight(k);
      NamesDiffer(d, FMT_SPECS[k].directive);
    }
  }

  lemma FrontSplits(c: Component, cs: seq<Component>, rest: string)
    ensures ([c] + cs)[1..] == cs && Print([c] + cs) + rest == PrintOne(c) + (Print(cs) + rest)
  {
    assert ([c] + cs)[1..] == cs;
    assert Print([c] + cs) == PrintOne(c) + Print(cs);
  }

  lemma FrontBegins(cs: seq<Component>, rest: string)
    requires rest != "" && rest[0] == '{' && (cs != [] ==> cs[0].Field?)
    ensures var s := Print(cs) + rest; s != "" && s[0] == '{'
  {
  }

  /** Printed components in front of a brace are read, whatever follows. */
  lemma {:induction false} FrontIsRead(pre: bool, cs: seq<Component>, rest: string)
    requires Sayable(pre, cs) && rest != "" && rest[0] == '{'
    ensures Parse(pre, Print(cs) + rest) == After(cs, Parse(pre, rest))
  {
    if cs == [] {
      assert Print(cs) + rest == rest;
    } else {
      var c, more := cs[0], cs[1..];
      var behind := Print(more) + rest;
      assert cs == [c] + more;
      SayableSplits(pre, c, more);
      FrontIsRead(pre, more, rest);
      FrontSplits(c, more, rest);
      if c.Literal? {
        FrontBegins(more, rest);
        EscapeSpells(c.str, '{', false);
        LiteralIsRead(pre, Escape(c.str), c.str, behind);
      } else {
        NameSpells(c.directive);
        FieldIsRead(pre, Name(c.directive), c.directive, behind);
      }
      AfterAfter([c], more, Parse(pre, rest));
    }
  }

  /** The error for a directive that reads as name, with or without a closing brace. */
  function ErrorFor(name: string, closed: bool): Error {
    if name == "" then EmptyDirective
    else if !closed then MissingBrace
    else if Known(name) then WrongPhase
    else UnknownDirective
  }

  lemma BadDirective(pre: bool, u: string, name: string, rest: string)
    requires Spells(u, name, '}', rest == "") && (rest != "" ==> rest[0] == '}')
    requires name == "" || rest == "" || Resolve(pre, name).Err?
    ensures Parse(pre, "{" + (u + rest)) ==
            Outcome(if name != "" && rest != "" then [BLANK] else [], Some(ErrorFor(name, rest != "")))
  {
    var s := "{" + (u + rest);
    assert s[1..] == u + rest;
    SpellingIsRead(u, name, rest, '}');
    RefusedName(pre, name);
    assert TakeUntil(s, '{') == ("", s);
  }

  /**
   The first bad directive stops the parser: what was written before it is stored, and
   a blank component if the directive was complete; the error says what was wrong.
   */
  lemma FirstErrorDecides(pre: bool, cs: seq<Component>, u: string, name: string, rest: string)
    requires Sayable(pre, cs)
    requires Spells(u, name, '}', rest == "") && (rest != "" ==> rest[0] == '}')
    requires name == "" || rest == "" || Resolve(pre, name).Err?
    ensures Parse(pre, Print(cs) + ("{" + (u + rest))) ==
            Outcome(cs + if name != "" && rest != "" then [BLANK] else [], Some(ErrorFor(name, rest != "")))
  {
    FrontIsRead(pre, cs, "{" + (u + rest));
    BadDirective(pre, u, name, rest);
  }
}
