/** The parser accepts a template exactly when it spells something sayable, and reads what it spells. */
module StatsTemplateTheorems {
  import opened Wrappers
  import opened StatsTemplateModel

  // ---------------------------------------------------------------- the texts

  /** Every spelling of a text, up to a delimiter or the end, is read as that text. */
  lemma {:induction false} SpellingIsRead(u: string, t: string, rest: string, delim: char)
    requires delim != '\\' && Spells(u, t, delim, rest == "")
    requires rest != "" ==> rest[0] == delim
    ensures TakeUntil(u + rest, delim) == (t, rest)
    decreases |t|
  {
    if t == "" {
      assert u + rest == rest;
    } else if |u| >= 2 && u[0] == '\\' && u[1] == t[0] && Spells(u[2..], t[1..], delim, rest == "") {
      SpellingIsRead(u[2..], t[1..], rest, delim);
      assert (u + rest)[2..] == u[2..] + rest && t == [t[0]] + t[1..];
    } else if |u| >= 1 && u[0] != '\\' {
      SpellingIsRead(u[1..], t[1..], rest, delim);
      assert (u + rest)[1..] == u[1..] + rest && t == [t[0]] + t[1..];
    } else {
      assert u + rest == u && TakeUntil("", delim) == ("", "");
    }
  }

  /** What was read is what the consumed part spells. */
  lemma {:induction false} ReadIsSpelled(s: string, delim: char)
    requires delim != '\\'
    ensures var (t, rest) := TakeUntil(s, delim);
            var k := |s| - |rest|;
            k >= 0 && s[k..] == rest && Spells(s[..k], t, delim, rest == "")
    decreases |s|
  {
    if s != "" {
      var (t, rest) := TakeUntil(s, delim);
      var k := |s| - |rest|;
      if s[0] == '\\' && |s| > 1 {
        ReadIsSpelled(s[2..], delim);
        assert s[..k][2..] == s[2..][..k-2];
      } else if s[0] != delim {
        ReadIsSpelled(s[1..], delim);
        assert s[..k][1..] == s[1..][..k-1];
      }
    }
  }

  lemma {:induction false} EscapeSpells(t: string, delim: char, atEnd: bool)
    requires delim in "{}"
    ensures Spells(Escape(t), t, delim, atEnd)
  {
    if t != "" {
      EscapeSpells(t[1..], delim, atEnd);
      var e := Escape(t);
      if t[0] in "\\{}" {
        assert e[2..] == Escape(t[1..]);
      } else {
        assert e[1..] == Escape(t[1..]);
      }
    }
  }

  // ----------------------------------------------------------- the directives

  lemma {:induction false} LookupFindsFirst(name: string, i: nat, j: nat)
    requires i <= j < |FMT_SPECS| && FMT_SPECS[j].str == name
    ensures exists k :: i <= k <= j && LookupFrom(name, i) == Some(FMT_SPECS[k]) && FMT_SPECS[k].str == name
    decreases j - i
  {
    if FMT_SPECS[i].str != name {
      LookupFindsFirst(name, i + 1, j);
    }
  }

  lemma {:induction false} LookupIsSound(name: string, i: nat)
    requires i <= |FMT_SPECS|
    ensures LookupFrom(name, i).Some? ==>
              exists k :: i <= k < |FMT_SPECS| && LookupFrom(name, i) == Some(FMT_SPECS[k]) && FMT_SPECS[k].str == name
    decreases |FMT_SPECS| - i
  {
    if i < |FMT_SPECS| && FMT_SPECS[i].str != name {
      LookupIsSound(name, i + 1);
    }
  }

  function Position(d: Directive): (i: nat)
    ensures i < |FMT_SPECS|
  {
    match d
    case FileIdx => 0
    case StreamIdx => 1
    case FrameNum => 2
    case FrameNumIn => 3
    case Timebase => 4
    case TimebaseIn => 5
    case Pts => 6
    case PtsTime => 7
    case PtsIn => 8
    case PtsTimeIn => 9
    case Dts => 10
    case DtsTime => 11
    case SampleNum => 12
    case NbSamples => 13
    case PktSize => 14
    case Bitrate => 15
    case AvgBitrate => 16
    case Keyframe => 17
  }

  lemma PositionHolds(d: Directive)
    ensures FMT_SPECS[Position(d)].directive == d && FMT_SPECS[Position(d)].str == Name(d)
  {
  }

  lemma EntryIsRight(i: nat)
    requires i < |FMT_SPECS|
    ensures var f := FMT_SPECS[i];
            && f.str == Name(f.directive)
            && Allowed(true, f.directive) == !f.postOnly
            && Allowed(false, f.directive) == !f.preOnly
  {
  }

  lemma NamesDiffer(d: Directive, e: Directive)
    requires Name(d) == Name(e)
    ensures d == e
  {
  }

  /** A name resolves to a directive exactly when it is that directive's name and the phase allows it. */
  lemma ResolveIff(pre: bool, name: string, d: Directive)
    ensures Resolve(pre, name) == Ok(d) <==> name == Name(d) && Allowed(pre, d)
  {
    LookupIsSound(name, 0);
    PositionHolds(d);
    if name == Name(d) {
      LookupFindsFirst(name, 0, Position(d));
    }
    if LookupFrom(name, 0).Some? {
      var k :| 0 <= k < |FMT_SPECS| && LookupFrom(name, 0) == Some(FMT_SPECS[k]) && FMT_SPECS[k].str == name;
      EntryIsRight(k);
      if name == Name(d) {
        NamesDiffer(d, FMT_SPECS[k].directive);
      }
    }
  }

  // ----------------------------------------------------------- whole templates

  /** A literal in front of a directive or of the end is read as itself. */
  lemma LiteralIsRead(pre: bool, u: string, t: string, rest: string)
    requires t != "" && Spells(u, t, '{', rest == "") && (rest != "" ==> rest[0] == '{')
    ensures Parse(pre, u + rest) == After([Literal(t)], Parse(pre, rest))
  {
    SpellingIsRead(u, t, rest, '{');
    if rest == "" {
      assert Parse(pre, "") == Outcome([], None);
    } else {
      var front, back := ParseRound(pre, u + rest), ParseRound(pre, rest);
      assert TakeUntil(rest, '{') == ("", rest);
      assert front == Round([Literal(t)] + back.found, back.error, back.next);
      if back.error == None {
        AfterAfter([Literal(t)], back.found, Parse(pre, back.next));
      }
    }
  }

  lemma FieldIsRead(pre: bool, u: string, d: Directive, rest: string)
    requires Spells(u, Name(d), '}', false) && Allowed(pre, d)
    ensures Parse(pre, "{" + u + "}" + rest) == After([Field(d)], Parse(pre, rest))
  {
    var s := "{" + u + "}" + rest;
    SpellsAnywhere(u, Name(d), '}');
    SpellingIsRead(u, Name(d), "}" + rest, '}');
    assert s[1..] == u + ("}" + rest) && ("}" + rest)[1..] == rest;
    RoundAtBrace(pre, s, d, rest);
  }

  lemma {:induction false} SpellsAnywhere(u: string, t: string, delim: char)
    requires Spells(u, t, delim, false)
    ensures Spells(u, t, delim, true)
  {
    if t != "" {
      if |u| >= 2 && u[0] == '\\' && u[1] == t[0] && Spells(u[2..], t[1..], delim, false) {
        SpellsAnywhere(u[2..], t[1..], delim);
      } else {
        SpellsAnywhere(u[1..], t[1..], delim);
      }
    }
  }

  lemma OneIsRead(pre: bool, c: Component, s: string, k: nat)
    requires k <= |s| && SpellsOne(c, s, k)
    requires if c.Literal? then c.str != "" && (k < |s| ==> s[k] == '{') else Allowed(pre, c.directive)
    ensures Parse(pre, s) == After([c], Parse(pre, s[k..]))
  {
    if c.Literal? {
      assert s == s[..k] + s[k..];
      LiteralIsRead(pre, s[..k], c.str, s[k..]);
    } else {
      assert s == "{" + s[1..k-1] + "}" + s[k..];
      FieldIsRead(pre, s[1..k-1], c.directive, s[k..]);
    }
  }

  /** A template that begins with a directive begins with its brace. */
  lemma FieldStartsWithBrace(cs: seq<Component>, s: string)
    requires SpellsAll(cs, s)
    ensures cs == [] ==> s == ""
    ensures cs != [] && cs[0].Field? ==> s != "" && s[0] == '{'
  {
  }

  lemma SayableSplits(pre: bool, c: Component, cs: seq<Component>)
    ensures Sayable(pre, [c] + cs) <==>
            && Sayable(pre, cs)
            && if c.Literal? then c.str != "" && (cs != [] ==> cs[0].Field?) else Allowed(pre, c.directive)
  {
    var all := [c] + cs;
    assert all[0] == c;
    assert forall i :: 0 <= i < |cs| ==> all[i+1] == cs[i];
  }

  /** Every template that spells sayable components is read as those components. */
  lemma {:induction false} SpelledIsRead(pre: bool, cs: seq<Component>, s: string)
    requires Sayable(pre, cs) && SpellsAll(cs, s)
    ensures Parse(pre, s) == Outcome(cs, None)
    decreases |cs|
  {
    if cs != [] {
      var c, tail := cs[0], cs[1..];
      assert cs == [c] + tail;
      SayableSplits(pre, c, tail);
      var k :| 0 <= k <= |s| && SpellsOne(c, s, k) && SpellsAll(tail, s[k..]);
      SpelledIsRead(pre, tail, s[k..]);
      FieldStartsWithBrace(tail, s[k..]);
      OneIsRead(pre, c, s, k);
    }
  }

  lemma Prepend(c: Component, cs: seq<Component>, s: string, k: nat)
    requires k <= |s| && SpellsOne(c, s, k) && SpellsAll(cs, s[k..])
    ensures SpellsAll([c] + cs, s)
  {
    assert ([c] + cs)[1..] == cs;
  }

  /** What ParseRound does at an opening brace. */
  lemma RoundAtBrace(pre: bool, s: string, d: Directive, next: string)
    requires s != "" && s[0] == '{'
    ensures var (name, rest) := TakeUntil(s[1..], '}');
            ParseRound(pre, s) == Round([Field(d)], None, next) <==>
            name == Name(d) && rest != "" && Allowed(pre, d) && next == rest[1..]
  {
    assert TakeUntil(s, '{') == ("", s);
    var (name, rest) := TakeUntil(s[1..], '}');
    ResolveIff(pre, name, d);
    assert Name(d) != "";
    if name != "" && rest != "" && Resolve(pre, name).Ok? {
      var e := Resolve(pre, name).value;
      assert TextPart("") + [Field(e)] == [Field(e)];
      assert [Field(e)][0] == Field(e) && [Field(d)][0] == Field(d);
    }
  }

  /** The directive part of a round. */
  lemma ReadField(pre: bool, s: string, d: Directive, next: string)
    requires s != "" && s[0] == '{'
    requires ParseRound(pre, s) == Round([Field(d)], None, next)
    ensures exists k :: 0 <= k <= |s| && SpellsOne(Field(d), s, k) && s[k..] == next && Allowed(pre, d)
  {
    RoundAtBrace(pre, s, d, next);
    var rest := TakeUntil(s[1..], '}').1;
    ReadIsSpelled(s[1..], '}');
    var k := |s| - |rest| + 1;
    assert s[1..][..k-2] == s[1..k-1];
    assert s[k-1..] == rest;
    assert SpellsField(d, s, k);
    assert s[k..] == s[k-1..][1..];
  }

  /** A round on a template that does not start with a brace begins with a literal. */
  lemma ReadLiteral(pre: bool, s: string)
    requires s != "" && s[0] != '{'
    ensures var (t, rest) := TakeUntil(s, '{');
            && t != "" && |rest| < |s| && SpellsOne(Literal(t), s, |s| - |rest|) && s[|s|-|rest|..] == rest
            && Parse(pre, s) == After([Literal(t)], Parse(pre, rest))
  {
    var (t, rest) := TakeUntil(s, '{');
    ReadIsSpelled(s, '{');
    var k := |s| - |rest|;
    assert s == s[..k] + s[k..];
    LiteralIsRead(pre, s[..k], t, rest);
  }

  /** What was read without error is sayable, and the template spells it. */
  lemma {:induction false} ReadIsSpelledAll(pre: bool, s: string)
    requires Parse(pre, s).error == None
    ensures var cs := Parse(pre, s).components;
            Sayable(pre, cs) && SpellsAll(cs, s) && (s != "" && s[0] == '{' ==> cs != [] && cs[0].Field?)
    decreases |s|
  {
    if s != "" {
      var c: Component, k: nat;
      if s[0] != '{' {
        ReadLiteral(pre, s);
        var (t, rest) := TakeUntil(s, '{');
        c, k := Literal(t), |s| - |rest|;
      } else {
        var r := ParseRound(pre, s);
        var d := r.found[0].directive;
        ReadField(pre, s, d, r.next);
        c := Field(d);
        k :| 0 <= k <= |s| && SpellsOne(c, s, k) && s[k..] == r.next && Allowed(pre, d);
      }
      ReadIsSpelledAll(pre, s[k..]);
      var tail := Parse(pre, s[k..]).components;
      SayableSplits(pre, c, tail);
      Prepend(c, tail, s, k);
      assert Parse(pre, s).components == [c] + tail;
    }
  }

  // ----------------------------------------------------------------- theorems

  /** The parser equals its definition: it yields the components that the template spells, if they can be said. */
  lemma ParseIff(pre: bool, s: string, cs: seq<Component>)
    ensures Parse(pre, s) == Outcome(cs, None) <==> Sayable(pre, cs) && SpellsAll(cs, s)
  {
    if Sayable(pre, cs) && SpellsAll(cs, s) {
      SpelledIsRead(pre, cs, s);
    }
    if Parse(pre, s) == Outcome(cs, None) {
      ReadIsSpelledAll(pre, s);
    }
  }

  lemma OneSpells(c: Component, more: string)
    ensures var s := PrintOne(c) + more;
            SpellsOne(c, s, |PrintOne(c)|) && s[|PrintOne(c)|..] == more
  {
    var one := PrintOne(c);
    var s := one + more;
    assert s[..|one|] == one;
    if c.Literal? {
      EscapeSpells(c.str, '{', more == "");
    } else {
      NameSpells(c.directive);
      assert s[1..|one|-1] == Name(c.directive);
    }
  }

  lemma {:induction false} PrintSpells(cs: seq<Component>)
    ensures SpellsAll(cs, Print(cs))
  {
    if cs != [] {
      OneSpells(cs[0], Print(cs[1..]));
      PrintSpells(cs[1..]);
    }
  }

  lemma NameSpells(d: Directive)
    ensures Spells(Name(d), Name(d), '}', false)
  {
    EscapeSpells(Name(d), '}', false);
    assert forall i :: 0 <= i < |Name(d)| ==> 'a' <= Name(d)[i] <= 'z';
    PlainEscape(Name(d));
  }

  lemma {:induction false} PlainEscape(t: string)
    requires forall i :: 0 <= i < |t| ==> 'a' <= t[i] <= 'z'
    ensures Escape(t) == t
  {
    if t != "" {
      PlainEscape(t[1..]);
    }
  }

  /** Printing and parsing give the components back. */
  lemma RoundTrip(pre: bool, cs: seq<Component>)
    requires Sayable(pre, cs)
    ensures Parse(pre, Print(cs)) == Outcome(cs, None)
  {
    PrintSpells(cs);
    ParseIff(pre, Print(cs), cs);
  }

  /** What can be parsed is exactly what can be said, and any template is equivalent to its printed form. */
  lemma ReprintIsEquivalent(pre: bool, s: string)
    requires Parse(pre, s).error == None
    ensures Parse(pre, Print(Parse(pre, s).components)) == Parse(pre, s)
  {
    ReadIsSpelledAll(pre, s);
    RoundTrip(pre, Parse(pre, s).components);
  }

  /** A template good for both phases means the same in both. */
  lemma {:induction false} PhasesAgree(s: string)
    requires Parse(true, s).error == None && Parse(false, s).error == None
    ensures Parse(true, s) == Parse(false, s)
    decreases |s|
  {
    if s != "" {
      assert ParseRound(true, s).error == None && ParseRound(false, s).error == None;
      assert ParseRound(true, s) == ParseRound(false, s);
      PhasesAgree(ParseRound(true, s).next);
    }
  }
}
