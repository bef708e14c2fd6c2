/** Stream specifiers: what a parsed one means, and the grammar that produces it. */
module StreamSpecifierModel {
  import opened Wrappers

  datatype MediaType = Unknown | Video | Audio | Data | Subtitle | Attachment

  datatype StreamList = ListAll | ListStreamId | ListProgram | ListGroupIdx | ListGroupId

  const FLAG_BITS: nat := 32

  /** Dispositions are sets of flags of an int; ATTACHED_PIC is the one for attached pictures. */
  type Flags = f: set<nat> | forall b :: b in f ==> b < FLAG_BITS
  const ATTACHED_PIC: nat := 10

  datatype Specifier = Specifier(
    idx: int,
    list: StreamList,
    listId: int,
    media: MediaType,
    noApic: bool,
    usableOnly: bool,
    disposition: Flags,
    metaKey: Option<string>,
    metaVal: Option<string>,
    remainder: Option<string>)

  datatype Stream = Stream(
    id: int,
    codecType: MediaType,
    disposition: Flags,
    metadata: seq<(string, string)>,
    sampleRate: int, channels: int,
    width: int, height: int,
    hasFormat: bool)

  /** A program or a stream group: an id and the indices of its streams. */
  datatype Bundle = Bundle(id: int, streams: seq<nat>)

  datatype Context = Context(streams: seq<Stream>, programs: seq<Bundle>, groups: seq<Bundle>)

  ghost predicate ValidContext(s: Context) {
    && (forall i, k :: 0 <= i < |s.programs| && 0 <= k < |s.programs[i].streams| ==>
          s.programs[i].streams[k] < |s.streams|)
    && (forall i, k :: 0 <= i < |s.groups| && 0 <= k < |s.groups[i].streams| ==>
          s.groups[i].streams[k] < |s.streams|)
  }

  // -------------------------------------------------- one stream's constraints

  function Upper(c: char): char { if 'a' <= c <= 'z' then c - 32 as char else c }

  /** Metadata keys are compared without regard to ASCII case. */
  predicate SameKey(a: string, b: string) {
    |a| == |b| && forall i :: 0 <= i < |a| ==> Upper(a[i]) == Upper(b[i])
  }

  function DictGet(m: seq<(string, string)>, key: string): Option<string> {
    if m == [] then None
    else if SameKey(m[0].0, key) then Some(m[0].1)
    else DictGet(m[1..], key)
  }

  predicate Usable(c: Stream) {
    match c.codecType
    case Audio => c.sampleRate != 0 && c.channels != 0 && c.hasFormat
    case Video => c.width != 0 && c.height != 0 && c.hasFormat
    case Unknown => false
    case _ => true
  }

  predicate MetaOk(ss: Specifier, c: Stream) {
    ss.metaKey.Some? ==>
      var tag := DictGet(c.metadata, ss.metaKey.value);
      tag.Some? && (ss.metaVal.Some? ==> tag.value == ss.metaVal.value)
  }

  /** All the constraints a specifier puts on a stream by itself. */
  predicate Fits(ss: Specifier, c: Stream) {
    && (ss.media != Unknown ==> c.codecType == ss.media && !(ss.noApic && ATTACHED_PIC in c.disposition))
    && MetaOk(ss, c)
    && (ss.usableOnly ==> Usable(c))
    && ss.disposition <= c.disposition
  }

  // ------------------------------------------------------------ the definition

  function FindBundle(bs: seq<Bundle>, id: int): Option<seq<nat>> {
    if bs == [] then None
    else if bs[0].id == id then Some(bs[0].streams)
    else FindBundle(bs[1..], id)
  }

  /** The streams considered, in order; None when the program or group does not exist. */
  function Candidates(ss: Specifier, s: Context): Option<seq<nat>> {
    match ss.list
    case ListAll => Some(Range(|s.streams|))
    case ListStreamId => Some(WithId(s.streams, ss.listId, |s.streams|))
    case ListProgram => FindBundle(s.programs, ss.listId)
    case ListGroupId => FindBundle(s.groups, ss.listId)
    case ListGroupIdx =>
      if 0 <= ss.listId < |s.groups| then Some(s.groups[ss.listId].streams) else None
  }

  function Range(n: nat): (r: seq<nat>)
    ensures |r| == n && forall i :: 0 <= i < n ==> r[i] == i
  {
    seq(n, i => i)
  }

  function WithId(streams: seq<Stream>, id: int, n: nat): seq<nat>
    requires n <= |streams|
  {
    if n == 0 then []
    else WithId(streams, id, n - 1) + if streams[n-1].id == id then [n - 1] else []
  }

  /** The candidates that fit. */
  function Filtered(ss: Specifier, streams: seq<Stream>, l: seq<nat>): seq<nat> {
    if l == [] then []
    else
      var k := l[|l|-1];
      Filtered(ss, streams, l[..|l|-1]) + if k < |streams| && Fits(ss, streams[k]) then [k] else []
  }

  /**
   What matching means: the stream is among the candidates that fit and, when an
   index is given, its first occurrence among them is at that index.
   */
  ghost predicate Matches(ss: Specifier, s: Context, st: nat) {
    Candidates(ss, s).Some? &&
    var f := Filtered(ss, s.streams, Candidates(ss, s).value);
    && st in f
    && (ss.idx >= 0 ==> ss.idx < |f| && f[ss.idx] == st && st !in f[..ss.idx])
  }

  /** What the parser guarantees of its result. */
  predicate WellFormed(ss: Specifier) {
    && (ss.list.ListStreamId? ==> ss.idx < 0)
    && (ss.metaVal.Some? ==> ss.metaKey.Some?)
    && (ss.noApic ==> ss.media == Video)
    && (ss.metaKey.Some? || ss.usableOnly ==> ss.idx == -1)
  }

  // --------------------------------------------------------------- the grammar

  /** Library calls: strtol with base 0, av_opt_eval_flags and av_get_token up to ':', with the length they read. */
  datatype Lib = Lib(
    strtol: string -> (int, nat),
    evalFlags: string -> Option<Flags>,
    token: string -> (string, nat))

  predicate Digit(c: char) { '0' <= c <= '9' }

  predicate Alnum(c: char) { Digit(c) || 'A' <= c <= 'Z' || 'a' <= c <= 'z' }

  function Clamp(n: nat, limit: nat): nat { if n < limit then n else limit }

  /** strtol reads at least the digit it starts with, and never past the end. */
  function Number(lib: Lib, s: string): (r: (int, nat))
    ensures r.1 <= |s| && (s != "" && Digit(s[0]) ==> r.1 > 0)
  {
    var (v, n) := lib.strtol(s);
    var n' := Clamp(n, |s|);
    (v, if n' == 0 && s != "" && Digit(s[0]) then 1 else n')
  }

  function Token(lib: Lib, s: string): (r: (string, nat))
    ensures r.1 <= |s|
  {
    var (v, n) := lib.token(s);
    (v, Clamp(n, |s|))
  }

  /** The character at i, or the terminating NUL. */
  function CharAt(s: string, i: nat): char { if i < |s| then s[i] else '\0' }

  function ToInt32(x: int): int { (x + 0x8000_0000) % 0x1_0000_0000 - 0x8000_0000 }

  predicate MediaLetter(s: string) {
    CharAt(s, 0) in "vasdtV" && !Alnum(CharAt(s, 1))
  }

  predicate IdPrefix(s: string) {
    CharAt(s, 0) == '#' || (CharAt(s, 0) == 'i' && CharAt(s, 1) == ':')
  }

  function IdPrefixLength(s: string): nat { if CharAt(s, 0) == 'i' then 2 else 1 }

  function MediaOf(c: char): MediaType {
    match c
    case 'v' => Video
    case 'V' => Video
    case 'a' => Audio
    case 's' => Subtitle
    case 'd' => Data
    case _ => Attachment
  }

  function FlagsLength(s: string): (n: nat)
    ensures n <= |s|
  {
    if s != "" && (Alnum(s[0]) || s[0] == '_' || s[0] == '+') then 1 + FlagsLength(s[1..]) else 0
  }

  /** Skips one ':' between two parts. */
  function SkipColon(s: string): (r: string)
    ensures |r| <= |s|
  {
    if s != "" && s[0] == ':' then s[1..] else s
  }

  datatype Part =
    | More(ss: Specifier, rest: string)    // another part may follow
    | Last(ss: Specifier, rest: string)    // this part ends the specifier
    | Invalid

  /** A designator of a program, a group or a stream id: the number after its prefix. */
  function Designator(lib: Lib, ss: Specifier, list: StreamList, s: string, prefix: nat, last: bool): (p: Part)
    requires prefix <= |s|
    ensures !p.Invalid? ==> |p.rest| < |s| - prefix
  {
    if ss.list != ListAll then Invalid
    else
      var (v, n) := Number(lib, s[prefix..]);
      if n == 0 then Invalid
      else
        var ss' := ss.(list := list, listId := v);
        var rest := s[prefix..][n..];
        if last then Last(ss', rest) else More(ss', rest)
  }

  /** One part of a specifier at the start of s. */
  function ParsePart(lib: Lib, ss: Specifier, s: string): (p: Part)
    requires s != ""
    ensures p.More? ==> |p.rest| < |s|
    ensures !p.Invalid? ==> |p.rest| <= |s|
  {
    if Digit(s[0]) then
      var (v, n) := Number(lib, s);
      Last(ss.(idx := ToInt32(v)), s[n..])
    else if MediaLetter(s) then
      if ss.media != Unknown then Invalid
      else More(ss.(media := MediaOf(s[0]), noApic := ss.noApic || s[0] == 'V'), s[1..])
    else if s[0] == 'g' && CharAt(s, 1) == ':' then
      if IdPrefix(s[2..]) then Designator(lib, ss, ListGroupId, s, 2 + IdPrefixLength(s[2..]), false)
      else Designator(lib, ss, ListGroupIdx, s, 2, false)
    else if s[0] == 'p' && CharAt(s, 1) == ':' then
      Designator(lib, ss, ListProgram, s, 2, false)
    else if "disp:" <= s then
      if ss.disposition != {} then Invalid
      else
        var n := FlagsLength(s[5..]);
        var flags := lib.evalFlags(s[5..5+n]);
        if flags == None then Invalid else More(ss.(disposition := flags.value), s[5+n..])
    else if IdPrefix(s) then
      Designator(lib, ss, ListStreamId, s, IdPrefixLength(s), true)
    else if s[0] == 'm' && CharAt(s, 1) == ':' then
      var (key, n) := Token(lib, s[2..]);
      var rest := s[2..][n..];
      if rest != "" && rest[0] == ':' then
        var (value, k) := Token(lib, rest[1..]);
        Last(ss.(metaKey := Some(key), metaVal := Some(value)), rest[1..][k..])
      else Last(ss.(metaKey := Some(key)), rest)
    else if s[0] == 'u' && (|s| == 1 || s[1] == ':') then
      Last(ss.(usableOnly := true), s[1..])
    else Last(ss, s)
  }

  function Empty(): Specifier { Specifier(-1, ListAll, 0, Unknown, false, false, {}, None, None, None) }

  /** All parts, one after the other; the result carries the unread rest. */
  function ParseParts(lib: Lib, ss: Specifier, s: string): Option<(Specifier, string)>
    decreases |s|
  {
    if s == "" then Some((ss, s))
    else
      match ParsePart(lib, ss, s)
      case Invalid => None
      case Last(ss', rest) => Some((ss', rest))
      case More(ss', rest) => ParseParts(lib, ss', SkipColon(rest))
  }

  /** A whole specifier string. */
  function Parse(lib: Lib, s: string, allowRemainder: bool): Option<Specifier> {
    match ParseParts(lib, Empty(), s)
    case None => None
    case Some((ss, rest)) =>
      if rest == "" then Some(ss)
      else if allowRemainder then Some(ss.(remainder := Some(SkipColon(rest))))
      else None
  }
}
