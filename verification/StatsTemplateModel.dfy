/** Templates for encoder statistics: what a template spells, and the parser as a function. */
module StatsTemplateModel {
  import opened Wrappers

  datatype Directive =
    | FileIdx | StreamIdx | FrameNum | FrameNumIn | Timebase | TimebaseIn
    | Pts | PtsTime | PtsIn | PtsTimeIn | Dts | DtsTime | SampleNum | NbSamples
    | PktSize | Bitrate | AvgBitrate | Keyframe

  datatype Component = Literal(str: string) | Field(directive: Directive)

  datatype Error = EmptyDirective | MissingBrace | WrongPhase | UnknownDirective

  datatype FmtSpec = FmtSpec(directive: Directive, str: string, preOnly: bool, postOnly: bool)

  const FMT_SPECS: seq<FmtSpec> := [
    FmtSpec(FileIdx, "fidx", false, false),
    FmtSpec(StreamIdx, "sidx", false, false),
    FmtSpec(FrameNum, "n", false, false),
    FmtSpec(FrameNumIn, "ni", false, false),
    FmtSpec(Timebase, "tb", false, false),
    FmtSpec(TimebaseIn, "tbi", false, false),
    FmtSpec(Pts, "pts", false, false),
    FmtSpec(PtsTime, "t", false, false),
    FmtSpec(PtsIn, "ptsi", false, false),
    FmtSpec(PtsTimeIn, "ti", false, false),
    FmtSpec(Dts, "dts", false, true),
    FmtSpec(DtsTime, "dt", false, true),
    FmtSpec(SampleNum, "sn", true, false),
    FmtSpec(NbSamples, "samp", true, false),
    FmtSpec(PktSize, "size", false, true),
    FmtSpec(Bitrate, "br", false, true),
    FmtSpec(AvgBitrate, "abr", false, true),
    FmtSpec(Keyframe, "key", false, true)]

  // -------------------------------------------------------- what a text spells

  /**
   The string u writes the text t up to a delimiter: each character by itself, unless
   it is a backslash or the delimiter, or after a backslash. At the very end of the
   input a single backslash stands for itself.
   */
  predicate Spells(u: string, t: string, delim: char, atEnd: bool) {
    if t == "" then u == ""
    else
      || (|u| >= 2 && u[0] == '\\' && u[1] == t[0] && Spells(u[2..], t[1..], delim, atEnd))
      || (|u| >= 1 && u[0] != '\\' && u[0] != delim && u[0] == t[0] && Spells(u[1..], t[1..], delim, atEnd))
      || (atEnd && u == "\\" && t == "\\")
  }

  /** The first k characters of s write the literal t. */
  predicate SpellsLiteral(t: string, s: string, k: nat)
    requires k <= |s|
  {
    Spells(s[..k], t, '{', k == |s|)
  }

  /** The first k characters of s write the directive d in braces. */
  predicate SpellsField(d: Directive, s: string, k: nat)
    requires k <= |s|
  {
    k >= 2 && s[0] == '{' && s[k-1] == '}' && Spells(s[1..k-1], Name(d), '}', false)
  }

  predicate SpellsOne(c: Component, s: string, k: nat)
    requires k <= |s|
  {
    match c
    case Literal(t) => SpellsLiteral(t, s, k)
    case Field(d) => SpellsField(d, s, k)
  }

  /** The string s writes the components cs. */
  ghost predicate SpellsAll(cs: seq<Component>, s: string) {
    if cs == [] then s == ""
    else exists k :: 0 <= k <= |s| && SpellsOne(cs[0], s, k) && SpellsAll(cs[1..], s[k..])
  }

  /** What a template can say before (pre) or after encoding. */
  predicate Sayable(pre: bool, cs: seq<Component>) {
    && (forall i :: 0 <= i < |cs| ==> cs[i].Literal? ==> cs[i].str != "")
    && (forall i :: 0 <= i < |cs| - 1 ==> cs[i].Literal? ==> cs[i+1].Field?)
    && (forall i :: 0 <= i < |cs| ==> cs[i].Field? ==> Allowed(pre, cs[i].directive))
  }

  predicate Allowed(pre: bool, d: Directive) {
    if pre then d !in {Dts, DtsTime, PktSize, Bitrate, AvgBitrate, Keyframe}
    else d !in {SampleNum, NbSamples}
  }

  function Name(d: Directive): string {
    match d
    case FileIdx => "fidx"
    case StreamIdx => "sidx"
    case FrameNum => "n"
    case FrameNumIn => "ni"
    case Timebase => "tb"
    case TimebaseIn => "tbi"
    case Pts => "pts"
    case PtsTime => "t"
    case PtsIn => "ptsi"
    case PtsTimeIn => "ti"
    case Dts => "dts"
    case DtsTime => "dt"
    case SampleNum => "sn"
    case NbSamples => "samp"
    case PktSize => "size"
    case Bitrate => "br"
    case AvgBitrate => "abr"
    case Keyframe => "key"
  }

  // ---------------------------------------------------------------- printing

  function Escape(t: string): string {
    if t == "" then "" else (if t[0] in "\\{}" then ['\\', t[0]] else [t[0]]) + Escape(t[1..])
  }

  function PrintOne(c: Component): string {
    match c
    case Literal(t) => Escape(t)
    case Field(d) => "{" + Name(d) + "}"
  }

  function Print(cs: seq<Component>): string {
    if cs == [] then "" else PrintOne(cs[0]) + Print(cs[1..])
  }

  // ----------------------------------------------------------------- parsing

  /** The text up to an unescaped delimiter, and the rest from the delimiter on. */
  function TakeUntil(s: string, delim: char): (r: (string, string))
    ensures |r.0| + |r.1| <= |s|
    ensures r.1 != "" ==> r.1[0] == delim
  {
    if s == "" then ("", "")
    else if s[0] == '\\' && |s| > 1 then
      var (t, rest) := TakeUntil(s[2..], delim);
      ([s[1]] + t, rest)
    else if s[0] == delim then ("", s)
    else
      var (t, rest) := TakeUntil(s[1..], delim);
      ([s[0]] + t, rest)
  }

  function LookupFrom(name: string, i: nat): Option<FmtSpec>
    requires i <= |FMT_SPECS|
    decreases |FMT_SPECS| - i
  {
    if i == |FMT_SPECS| then None
    else if FMT_SPECS[i].str == name then Some(FMT_SPECS[i])
    else LookupFrom(name, i + 1)
  }

  function Resolve(pre: bool, name: string): Result<Directive, Error> {
    match LookupFrom(name, 0)
    case None => Err(UnknownDirective)
    case Some(f) =>
      if (pre && f.postOnly) || (!pre && f.preOnly) then Err(WrongPhase) else Ok(f.directive)
  }

  /** The components stored, also when parsing stops at an error. */
  datatype Outcome = Outcome(components: seq<Component>, error: Option<Error>)

  /** A component slot that was added but never filled. */
  const BLANK := Literal("")

  function TextPart(t: string): seq<Component> { if t == "" then [] else [Literal(t)] }

  /** The outcome o of the rest, after the components found before it. */
  function After(found: seq<Component>, o: Outcome): Outcome { Outcome(found + o.components, o.error) }

  lemma AfterAfter(a: seq<Component>, b: seq<Component>, o: Outcome)
    ensures After(a, After(b, o)) == After(a + b, o)
  {
    assert a + (b + o.components) == (a + b) + o.components;
  }

  /** A literal and a directive: the components stored, how it failed, and where to go on. */
  datatype Round = Round(found: seq<Component>, error: Option<Error>, next: string)

  function ParseRound(pre: bool, s: string): (r: Round)
    ensures s != "" && r.error == None ==> |r.next| < |s|
  {
    var (t, rest) := TakeUntil(s, '{');
    if rest == "" then Round(TextPart(t), None, "")
    else
      var (name, rest') := TakeUntil(rest[1..], '}');
      if name == "" then Round(TextPart(t), Some(EmptyDirective), rest')
      else if rest' == "" then Round(TextPart(t), Some(MissingBrace), rest')
      else match Resolve(pre, name)
        case Err(e) => Round(TextPart(t) + [BLANK], Some(e), rest')
        case Ok(d) => Round(TextPart(t) + [Field(d)], None, rest'[1..])
  }

  function Parse(pre: bool, s: string): Outcome
    decreases |s|
  {
    if s == "" then Outcome([], None)
    else
      var r := ParseRound(pre, s);
      if r.error.Some? then Outcome(r.found, r.error) else After(r.found, Parse(pre, r.next))
  }
}
