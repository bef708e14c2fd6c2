/** Parsing and matching as the loops they are, and what connects them. */
module StreamSpecifierCode {
  import opened Wrappers
  import opened StreamSpecifierModel

  // ------------------------------------------------------------------ parsing

  /** Reads the number of a program, group or stream-id designator, whose prefix ends before `prefix`. */
  method ReadDesignator(lib: Lib, ss: Specifier, list: StreamList, s: string, prefix: nat, last: bool) returns (p: Part)
    requires prefix <= |s|
    ensures p == Designator(lib, ss, list, s, prefix, last)
  {
    if ss.list != ListAll {
      return Invalid;
    }
    var rest := s[prefix..];
    var (v, n) := Number(lib, rest);
    if n == 0 {
      return Invalid;
    }
    var filled := ss.(list := list, listId := v);
    p := if last then Last(filled, rest[n..]) else More(filled, rest[n..]);
  }

  lemma SliceOfRest(s: string, k: nat, len: nat)
    requires k + len <= |s|
    ensures s[k..][..len] == s[k..k+len] && s[k..][len..] == s[k+len..]
  {
  }

  method ReadDisposition(lib: Lib, ss: Specifier, s: string) returns (p: Part)
    requires "disp:" <= s && !Digit(s[0]) && !MediaLetter(s)
    ensures p == ParsePart(lib, ss, s)
  {
    if ss.disposition != {} {
      return Invalid;
    }
    var rest := s[5..];
    var len := 0;
    while len < |rest| && (Alnum(rest[len]) || rest[len] == '_' || rest[len] == '+')
      invariant len <= |rest| && FlagsLength(rest) == len + FlagsLength(rest[len..])
    {
      len := len + 1;
    }
    SliceOfRest(s, 5, len);
    var flags := lib.evalFlags(s[5..5+len]);
    p := if flags == None then Invalid else More(ss.(disposition := flags.value), rest[len..]);
  }

  /** One round of the parser's loop. */
  method ReadPart(lib: Lib, ss: Specifier, s: string) returns (p: Part)
    requires s != ""
    ensures p == ParsePart(lib, ss, s)
  {
    if Digit(s[0]) {
      var (v, n) := Number(lib, s);
      return Last(ss.(idx := ToInt32(v)), s[n..]);
    }
    if MediaLetter(s) {
      if ss.media != Unknown {
        return Invalid;
      }
      var filled := ss.(media := MediaOf(s[0]));
      if s[0] == 'V' {
        filled := filled.(noApic := true);
      }
      return More(filled, s[1..]);
    }
    if s[0] == 'g' && CharAt(s, 1) == ':' {
      if IdPrefix(s[2..]) {
        p := ReadDesignator(lib, ss, ListGroupId, s, 2 + IdPrefixLength(s[2..]), false);
      } else {
        p := ReadDesignator(lib, ss, ListGroupIdx, s, 2, false);
      }
      return;
    }
    if s[0] == 'p' && CharAt(s, 1) == ':' {
      p := ReadDesignator(lib, ss, ListProgram, s, 2, false);
      return;
    }
    if "disp:" <= s {
      p := ReadDisposition(lib, ss, s);
      return;
    }
    if IdPrefix(s) {
      p := ReadDesignator(lib, ss, ListStreamId, s, IdPrefixLength(s), true);
      return;
    }
    if s[0] == 'm' && CharAt(s, 1) == ':' {
      var rest := s[2..];
      var (key, n) := Token(lib, rest);
      var filled := ss.(metaKey := Some(key));
      rest := rest[n..];
      if rest != "" && rest[0] == ':' {
        rest := rest[1..];
        var (value, k) := Token(lib, rest);
        filled := filled.(metaVal := Some(value));
        rest := rest[k..];
      }
      return Last(filled, rest);
    }
    if s[0] == 'u' && (|s| == 1 || s[1] == ':') {
      return Last(ss.(usableOnly := true), s[1..]);
    }
    p := Last(ss, s);
  }

  /** While the parser goes on, nothing that ends a specifier was read: its assertion on the metadata cannot fail. */
  predicate Unfinished(ss: Specifier) {
    && WellFormed(ss) && ss.idx == -1 && !ss.list.ListStreamId? && !ss.usableOnly
    && ss.metaKey == None && ss.metaVal == None && ss.remainder == None
  }

  lemma PartKeepsWellFormed(lib: Lib, ss: Specifier, s: string)
    requires s != "" && Unfinished(ss)
    ensures var p := ParsePart(lib, ss, s);
            && (p.More? ==> Unfinished(p.ss))
            && (p.Last? ==> WellFormed(p.ss) && p.ss.remainder == None)
  {
  }

  /** stream_specifier_parse: `rest` is the pointer into the string, `ss` the struct being filled. */
  method StreamSpecifierParse(lib: Lib, spec: string, allowRemainder: bool) returns (r: Option<Specifier>)
    ensures r == Parse(lib, spec, allowRemainder)
    ensures r.Some? ==> WellFormed(r.value) && (r.value.remainder.Some? ==> allowRemainder)
  {
    var ss, rest, done := Empty(), spec, false;
    while rest != "" && !done
      invariant WellFormed(ss) && ss.remainder == None && (!done ==> Unfinished(ss))
      invariant ParseParts(lib, Empty(), spec) == if done then Some((ss, rest)) else ParseParts(lib, ss, rest)
      decreases |rest|, !done
    {
      PartKeepsWellFormed(lib, ss, rest);
      var part := ReadPart(lib, ss, rest);
      if part.Invalid? {
        return None;
      }
      ss, rest, done := part.ss, part.rest, part.Last?;
      if !done && rest != "" && rest[0] == ':' {
        rest := rest[1..];
      }
    }
    if rest != "" {
      if !allowRemainder {
        return None;
      }
      if rest[0] == ':' {
        rest := rest[1..];
      }
      ss := ss.(remainder := Some(rest));
    }
    r := Some(ss);
  }

  // ----------------------------------------------------------------- matching

  lemma {:induction false} FilteredAppend(ss: Specifier, streams: seq<Stream>, l: seq<nat>, k: nat)
    ensures Filtered(ss, streams, l + [k]) ==
            Filtered(ss, streams, l) + if k < |streams| && Fits(ss, streams[k]) then [k] else []
  {
    assert (l + [k])[..|l|] == l;
  }

  lemma {:induction false} FilteredPrefix(ss: Specifier, streams: seq<Stream>, l: seq<nat>, n: nat)
    requires n <= |l|
    ensures Filtered(ss, streams, l[..n]) <= Filtered(ss, streams, l)
    decreases |l|
  {
    if n == |l| {
      assert l[..n] == l;
    } else {
      FilteredPrefix(ss, streams, l[..|l|-1], n);
      assert l[..|l|-1][..n] == l[..n];
    }
  }

  lemma {:induction false} FilteredMembers(ss: Specifier, streams: seq<Stream>, l: seq<nat>, k: nat)
    ensures k in Filtered(ss, streams, l) <==> k in l && k < |streams| && Fits(ss, streams[k])
    decreases |l|
  {
    if l != [] {
      var n := |l| - 1;
      FilteredMembers(ss, streams, l[..n], k);
      assert l == l[..n] + [l[n]];
    }
  }

  /** Finding st at position i of the list decides the match: what fits before it is its index. */
  lemma FoundAt(ss: Specifier, s: Context, l: seq<nat>, i: nat, st: nat)
    requires Candidates(ss, s) == Some(l) && i < |l| && l[i] == st && st < |s.streams| && Fits(ss, s.streams[st])
    requires st !in Filtered(ss, s.streams, l[..i])
    ensures Matches(ss, s, st) <==> ss.idx < 0 || ss.idx == |Filtered(ss, s.streams, l[..i])|
  {
    var before, all := Filtered(ss, s.streams, l[..i]), Filtered(ss, s.streams, l);
    FilteredAppend(ss, s.streams, l[..i], st);
    assert l[..i] + [st] == l[..i+1];
    FilteredPrefix(ss, s.streams, l, i + 1);
    assert before + [st] <= all;
    assert all[|before|] == st && all[..|before|] == before;
    if 0 <= ss.idx < |before| {
      assert before[ss.idx] in before;
    } else if ss.idx > |before| && ss.idx < |all| {
      assert all[..ss.idx][|before|] == st;
    }
  }

  lemma NotFoundMeansNoMatch(ss: Specifier, s: Context, l: seq<nat>, st: nat)
    requires Candidates(ss, s) == Some(l) && st !in Filtered(ss, s.streams, l)
    ensures !Matches(ss, s, st)
  {
  }

  lemma {:induction false} WithIdMembers(streams: seq<Stream>, id: int, n: nat, k: nat)
    requires n <= |streams|
    ensures k in WithId(streams, id, n) <==> k < n && streams[k].id == id
  {
    if n > 0 {
      WithIdMembers(streams, id, n - 1, k);
    }
  }

  method Find(bs: seq<Bundle>, id: int) returns (r: Option<seq<nat>>)
    ensures r == FindBundle(bs, id)
    ensures r.Some? ==> exists i :: 0 <= i < |bs| && bs[i].streams == r.value
  {
    var i := 0;
    while i < |bs|
      invariant i <= |bs| && FindBundle(bs, id) == FindBundle(bs[i..], id)
    {
      if bs[i].id == id {
        return Some(bs[i].streams);
      }
      i := i + 1;
    }
    r := None;
  }

  /** Up to position i of l the stream was not found, and nb others fit. */
  ghost predicate Counted(ss: Specifier, s: Context, l: seq<nat>, start: nat, i: nat, st: nat, nb: nat)
    requires start <= i <= |l|
  {
    nb == |Filtered(ss, s.streams, l[start..i])| && st !in Filtered(ss, s.streams, l[start..i])
  }

  lemma CountStep(ss: Specifier, s: Context, l: seq<nat>, start: nat, i: nat, st: nat, nb: nat)
    requires start <= i < |l| && l[i] < |s.streams| && Counted(ss, s, l, start, i, st, nb)
    ensures !Fits(ss, s.streams[l[i]]) ==> Counted(ss, s, l, start, i + 1, st, nb)
    ensures Fits(ss, s.streams[l[i]]) && l[i] != st ==> Counted(ss, s, l, start, i + 1, st, nb + 1)
  {
    FilteredAppend(ss, s.streams, l[start..i], l[i]);
    assert l[start..i] + [l[i]] == l[start..i+1];
  }

  lemma FoundInWindow(ss: Specifier, s: Context, l: seq<nat>, start: nat, i: nat, end: nat)
    requires start <= i < end <= |l| && l[i] < |s.streams| && Fits(ss, s.streams[l[i]])
    ensures l[i] in Filtered(ss, s.streams, l[start..end])
  {
    FilteredMembers(ss, s.streams, l[start..end], l[i]);
    assert l[start..end][i-start] == l[i];
  }

  /** The matcher's loop over positions start to end of the list l, up to the stream it looks for. */
  method Scan(ss: Specifier, s: Context, l: seq<nat>, start: nat, end: nat, st: nat)
      returns (found: bool, nbMatched: nat)
    requires start <= end <= |l| && forall i :: 0 <= i < |l| ==> l[i] < |s.streams|
    ensures found <==> st in Filtered(ss, s.streams, l[start..end])
    ensures found ==> exists i :: start <= i < end && l[i] == st && Fits(ss, s.streams[st])
                                  && st !in Filtered(ss, s.streams, l[start..i])
                                  && nbMatched == |Filtered(ss, s.streams, l[start..i])|
  {
    nbMatched := 0;
    var i := start;
    while i < end
      invariant start <= i <= end && Counted(ss, s, l, start, i, st, nbMatched)
    {
      var candidate := l[i];
      CountStep(ss, s, l, start, i, st, nbMatched);
      if Fits(ss, s.streams[candidate]) {
        if candidate == st {
          FoundInWindow(ss, s, l, start, i, end);
          return true, nbMatched;
        }
        nbMatched := nbMatched + 1;
      }
      i := i + 1;
    }
    found := false;
  }

  /**
   stream_specifier_match. The list scanned is shortened when the position of st in
   it is known, and the scan stops at the first occurrence of st.
   */
  method StreamSpecifierMatch(ss: Specifier, s: Context, st: nat) returns (r: bool)
    requires ValidContext(s) && st < |s.streams|
    requires ss.list.ListStreamId? ==> ss.idx < 0
    ensures r <==> Matches(ss, s, st)
  {
    var l, start, end := Range(|s.streams|), 0, st + 1;
    if ss.list.ListStreamId? {
      WithIdMembers(s.streams, ss.listId, |s.streams|, st);
      if s.streams[st].id != ss.listId {
        FilteredMembers(ss, s.streams, Candidates(ss, s).value, st);
        return false;
      }
      start := st;
    } else if ss.list.ListAll? {
      start := if ss.idx >= 0 then 0 else st;
    } else if ss.list.ListProgram? {
      var p := Find(s.programs, ss.listId);
      if p.None? {
        return false;
      }
      l, end := p.value, |p.value|;
    } else {
      var g := None;
      if ss.list.ListGroupId? {
        g := Find(s.groups, ss.listId);
      }
      if ss.list.ListGroupIdx? && 0 <= ss.listId < |s.groups| {
        g := Some(s.groups[ss.listId].streams);
      }
      if g.None? {
        return false;
      }
      l, end := g.value, |g.value|;
    }
    var found, nbMatched := Scan(ss, s, l, start, end, st);
    ScanDecides(ss, s, l, start, end, st, found, nbMatched);
    r := found && (ss.idx < 0 || ss.idx == nbMatched);
  }

  /** Where the matcher starts and stops: everything, or the part of all streams that can hold st. */
  predicate Window(ss: Specifier, s: Context, l: seq<nat>, start: nat, end: nat, st: nat) {
    && start <= end <= |l| && st < |s.streams|
    && if ss.list.ListStreamId? || ss.list.ListAll? then
         && l == Range(|s.streams|) && end == st + 1
         && (ss.list.ListStreamId? ==> ss.idx < 0 && s.streams[st].id == ss.listId)
         && start == if ss.idx >= 0 then 0 else st
       else Candidates(ss, s) == Some(l) && start == 0 && end == |l|
  }

  lemma ScanDecides(ss: Specifier, s: Context, l: seq<nat>, start: nat, end: nat, st: nat, found: bool, nbMatched: nat)
    requires Window(ss, s, l, start, end, st)
    requires found <==> st in Filtered(ss, s.streams, l[start..end])
    requires found ==> exists i :: start <= i < end && l[i] == st && Fits(ss, s.streams[st])
                                   && st !in Filtered(ss, s.streams, l[start..i])
                                   && nbMatched == |Filtered(ss, s.streams, l[start..i])|
    ensures Matches(ss, s, st) <==> found && (ss.idx < 0 || ss.idx == nbMatched)
  {
    var c := Candidates(ss, s).value;
    FilteredMembers(ss, s.streams, l[start..end], st);
    FilteredMembers(ss, s.streams, c, st);
    if ss.list.ListStreamId? {
      WithIdMembers(s.streams, ss.listId, |s.streams|, st);
      assert l[start..end] == [st];
    } else if ss.list.ListAll? && ss.idx < 0 {
      assert l[start..end] == [st] && c[st] == st;
    } else if found {
      var i :| start <= i < end && l[i] == st && Fits(ss, s.streams[st])
               && st !in Filtered(ss, s.streams, l[start..i])
               && nbMatched == |Filtered(ss, s.streams, l[start..i])|;
      FoundAt(ss, s, c, i, st);
    } else if ss.list.ListAll? {
      assert l[start..end][st] == st;
      NotFoundMeansNoMatch(ss, s, c, st);
    } else {
      assert l[start..end] == c;
    }
  }

  // ------------------------------------------------------------- consequences

  /** Without an index, matching is being a candidate that fits. */
  lemma MatchesUnindexed(ss: Specifier, s: Context, l: seq<nat>, st: nat)
    requires Candidates(ss, s) == Some(l) && ss.idx < 0 && st < |s.streams|
    ensures Matches(ss, s, st) <==> st in l && Fits(ss, s.streams[st])
  {
    FilteredMembers(ss, s.streams, l, st);
  }

  /** Entry i is the first of the bundles with this id, and it lists stream st. */
  predicate FirstLists(bs: seq<Bundle>, id: int, i: nat, st: nat) {
    i < |bs| && bs[i].id == id && st in bs[i].streams && forall j :: 0 <= j < i ==> bs[j].id != id
  }

  /** Stream st is in the program or group, or has the stream id, that the specifier names, if it names one. */
  ghost predicate Designated(ss: Specifier, s: Context, st: nat) {
    match ss.list
    case ListAll => st < |s.streams|
    case ListStreamId => st < |s.streams| && s.streams[st].id == ss.listId
    case ListProgram => exists i :: 0 <= i < |s.programs| && FirstLists(s.programs, ss.listId, i, st)
    case ListGroupId => exists i :: 0 <= i < |s.groups| && FirstLists(s.groups, ss.listId, i, st)
    case ListGroupIdx => 0 <= ss.listId < |s.groups| && st in s.groups[ss.listId].streams
  }

  lemma {:induction false} BundleFound(bs: seq<Bundle>, id: int, st: nat)
    ensures FindBundle(bs, id).Some? && st in FindBundle(bs, id).value <==>
            exists i :: 0 <= i < |bs| && FirstLists(bs, id, i, st)
  {
    if bs != [] {
      BundleFound(bs[1..], id, st);
      if bs[0].id == id {
        assert st in bs[0].streams ==> FirstLists(bs, id, 0, st);
      } else {
        if i :| 0 <= i < |bs| && FirstLists(bs, id, i, st) {
          assert FirstLists(bs[1..], id, i - 1, st);
        }
        if i :| 0 <= i < |bs[1..]| && FirstLists(bs[1..], id, i, st) {
          assert FirstLists(bs, id, i + 1, st);
        }
      }
    }
  }

  lemma CandidatesAreDesignated(ss: Specifier, s: Context, st: nat)
    requires st < |s.streams|
    ensures Candidates(ss, s).Some? && st in Candidates(ss, s).value <==> Designated(ss, s, st)
  {
    match ss.list
    case ListAll => assert Range(|s.streams|)[st] == st;
    case ListStreamId => WithIdMembers(s.streams, ss.listId, |s.streams|, st);
    case ListProgram => BundleFound(s.programs, ss.listId, st);
    case ListGroupId => BundleFound(s.groups, ss.listId, st);
    case ListGroupIdx =>
  }

  /** Entry i of the metadata is the first under this key, in whatever case. */
  predicate FirstUnder(m: seq<(string, string)>, key: string, i: nat) {
    i < |m| && SameKey(m[i].0, key) && forall j :: 0 <= j < i ==> !SameKey(m[j].0, key)
  }

  lemma {:induction false} DictGetsFirst(m: seq<(string, string)>, key: string, value: string)
    ensures DictGet(m, key) == Some(value) <==> exists i :: 0 <= i < |m| && FirstUnder(m, key, i) && m[i].1 == value
  {
    if m != [] {
      DictGetsFirst(m[1..], key, value);
      if SameKey(m[0].0, key) {
        assert m[0].1 == value ==> FirstUnder(m, key, 0);
      } else {
        if i :| 0 <= i < |m| && FirstUnder(m, key, i) && m[i].1 == value {
          assert FirstUnder(m[1..], key, i - 1);
        }
        if i :| 0 <= i < |m[1..]| && FirstUnder(m[1..], key, i) && m[1..][i].1 == value {
          assert FirstUnder(m, key, i + 1);
        }
      }
    }
  }

  /** The stream has what the specifier asks of its metadata. */
  ghost predicate HasTag(ss: Specifier, c: Stream) {
    ss.metaKey.Some? ==>
      exists i :: 0 <= i < |c.metadata| && FirstUnder(c.metadata, ss.metaKey.value, i)
                  && (ss.metaVal.Some? ==> c.metadata[i].1 == ss.metaVal.value)
  }

  lemma TagIff(ss: Specifier, c: Stream)
    ensures MetaOk(ss, c) <==> HasTag(ss, c)
  {
    if ss.metaKey.Some? {
      var key := ss.metaKey.value;
      if DictGet(c.metadata, key).Some? {
        DictGetsFirst(c.metadata, key, DictGet(c.metadata, key).value);
      }
      forall i | 0 <= i < |c.metadata| && FirstUnder(c.metadata, key, i)
        ensures DictGet(c.metadata, key) == Some(c.metadata[i].1)
      {
        DictGetsFirst(c.metadata, key, c.metadata[i].1);
      }
    }
  }

  /**
   What a match tells of the stream: it is where the specifier says, of the media
   type asked for, no attached picture where those are excluded, tagged as asked,
   usable if that is asked, and has every disposition asked for.  Without an index
   all this is also enough.
   */
  lemma MatchMeans(ss: Specifier, s: Context, st: nat)
    requires st < |s.streams|
    ensures var c := s.streams[st];
            var asked :=
              && Designated(ss, s, st)
              && (ss.media != Unknown ==> c.codecType == ss.media)
              && (ss.media != Unknown && ss.noApic ==> ATTACHED_PIC !in c.disposition)
              && HasTag(ss, c)
              && (ss.usableOnly ==>
                    && c.codecType != Unknown
                    && (c.codecType == Audio ==> c.sampleRate != 0 && c.channels != 0 && c.hasFormat)
                    && (c.codecType == Video ==> c.width != 0 && c.height != 0 && c.hasFormat))
              && (forall b :: b in ss.disposition ==> b in c.disposition);
            (Matches(ss, s, st) ==> asked) && (ss.idx < 0 && asked ==> Matches(ss, s, st))
  {
    CandidatesAreDesignated(ss, s, st);
    TagIff(ss, s.streams[st]);
    if Candidates(ss, s).Some? {
      FilteredMembers(ss, s.streams, Candidates(ss, s).value, st);
    }
  }

  /** An indexed specifier selects at most one stream. */
  lemma IndexedMatchIsUnique(ss: Specifier, s: Context, a: nat, b: nat)
    requires ss.idx >= 0 && Matches(ss, s, a) && Matches(ss, s, b)
    ensures a == b
  {
  }

  /** It selects one exactly when the entry at its index is no repetition of an earlier one. */
  lemma IndexedMatchExists(ss: Specifier, s: Context)
    requires ss.idx >= 0 && Candidates(ss, s).Some?
    ensures var f := Filtered(ss, s.streams, Candidates(ss, s).value);
            (exists st: nat :: Matches(ss, s, st)) <==> ss.idx < |f| && f[ss.idx] !in f[..ss.idx]
  {
    var f := Filtered(ss, s.streams, Candidates(ss, s).value);
    if ss.idx < |f| && f[ss.idx] !in f[..ss.idx] {
      assert Matches(ss, s, f[ss.idx]);
    }
  }

  /** check_stream_specifier. Whatever was parsed can be matched: the matcher's assertion on stream ids holds. */
  method CheckStreamSpecifier(lib: Lib, spec: string, s: Context, st: nat) returns (r: Result<bool, ()>)
    requires ValidContext(s) && st < |s.streams|
    ensures r == match Parse(lib, spec, false)
                 case None => Err(())
                 case Some(ss) => Ok(Matches(ss, s, st))
  {
    var ss := StreamSpecifierParse(lib, spec, false);
    if ss.None? {
      return Err(());
    }
    var m := StreamSpecifierMatch(ss.value, s, st);
    r := Ok(m);
  }
}
