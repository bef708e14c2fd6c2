/** Repair of decoding timestamps before muxing (mux_fixup_ts, after the rescaling), as a function, and its laws. */
module MuxTimestampsModel {
  import opened Wrappers
  import opened Divisibility

  const INT64_MIN: int := -0x8000_0000_0000_0000
  const INT64_MAX: int := 0x7fff_ffff_ffff_ffff

  /** AV_NOPTS_VALUE */
  const NOPTS: int := INT64_MIN

  datatype MediaType = Video | Audio | Subtitle | Data | Attachment

  datatype Config = Config(
    media: MediaType,
    noTimestamps: bool,   // AVFMT_NOTIMESTAMPS
    nonStrict: bool,      // AVFMT_TS_NONSTRICT
    exitOnError: bool)

  datatype Stamps = Stamps(pts: int, dts: int)

  datatype Error = InvalidArgument | EndOfFile | WriteFailed

  function Min(a: int, b: int): int { if a < b then a else b }

  function Max(a: int, b: int): int { if a > b then a else b }

  // ----------------------------------------------------------- the guess

  /** pts + dts + last + 1 - min - max: what the code computes for a dts after its pts. */
  function Guess(s: Stamps, last: int): int {
    s.pts + s.dts + last + 1 - Min(Min(s.pts, s.dts), last + 1) - Max(Max(s.pts, s.dts), last + 1)
  }

  /** m is one of the three, and no more than one of them is on either side of it. */
  predicate IsMedian(m: int, a: int, b: int, c: int) {
    && (m == a || m == b || m == c)
    && ((a <= m && b <= m) || (a <= m && c <= m) || (b <= m && c <= m))
    && ((a >= m && b >= m) || (a >= m && c >= m) || (b >= m && c >= m))
  }

  lemma GuessIsMedian(s: Stamps, last: int, m: int)
    ensures IsMedian(m, s.pts, s.dts, last + 1) <==> m == Guess(s, last)
  {
  }

  /** Before the first packet the guess is the presentation timestamp. */
  lemma FirstGuessIsPts(s: Stamps)
    requires INT64_MIN < s.pts < s.dts
    ensures Guess(s, NOPTS) == s.pts
  {
  }

  function Wrap64(x: int): int { (x - INT64_MIN) % 0x1_0000_0000_0000_0000 + INT64_MIN }

  lemma WrapOnce(x: int, y: int)
    ensures Wrap64(Wrap64(x) + y) == Wrap64(x + y)
  {
    var m := 0x1_0000_0000_0000_0000;
    var k := (x - INT64_MIN) / m;
    assert Wrap64(x) == x - k * m;
    assert Wrap64(x) + y - INT64_MIN == (x + y - INT64_MIN) + (-k) * m;
    ModShift(x + y - INT64_MIN, -k, m);
  }

  /** Wrapping at every addition is wrapping once. */
  lemma WrapChain(a: int, b: int, c: int, d: int, e: int)
    ensures Wrap64(Wrap64(Wrap64(Wrap64(a + b) + c) + d) + e) == Wrap64(a + b + c + d + e)
  {
    WrapOnce(a + b, c);
    WrapOnce(a + b + c, d);
    WrapOnce(a + b + c + d, e);
  }

  lemma WrapInRange(x: int)
    requires INT64_MIN <= x <= INT64_MAX
    ensures Wrap64(x) == x
  {
  }

  /** Computed left to right in 64 bits, the sum may wrap, but the result is still the median. */
  lemma GuessIn64Bits(s: Stamps, last: int)
    requires INT64_MIN <= s.pts <= INT64_MAX && INT64_MIN <= s.dts <= INT64_MAX && INT64_MIN <= last < INT64_MAX
    ensures var lo, hi := Min(Min(s.pts, s.dts), last + 1), Max(Max(s.pts, s.dts), last + 1);
            Wrap64(Wrap64(Wrap64(Wrap64(s.pts + s.dts) + (last + 1)) + -lo) + -hi) == Guess(s, last)
  {
    var lo, hi := Min(Min(s.pts, s.dts), last + 1), Max(Max(s.pts, s.dts), last + 1);
    WrapChain(s.pts, s.dts, last + 1, -lo, -hi);
    GuessIsMedian(s, last, Guess(s, last));
    WrapInRange(Guess(s, last));
    assert s.pts + s.dts + (last + 1) + -lo + -hi == Guess(s, last);
  }

  // ------------------------------------------------------------- the repair

  predicate Ordered(c: Config) {
    !c.noTimestamps && (c.media.Audio? || c.media.Video? || c.media.Subtitle?)
  }

  /** The smallest dts that may follow `last`. */
  function Floor(c: Config, last: int): int { last + if c.nonStrict then 0 else 1 }

  function Untangle(c: Config, s: Stamps, last: int): Stamps {
    if !c.noTimestamps && s.dts != NOPTS && s.pts != NOPTS && s.dts > s.pts
    then Stamps(Guess(s, last), Guess(s, last)) else s
  }

  predicate TooEarly(c: Config, s: Stamps, last: int) {
    Ordered(c) && s.dts != NOPTS && last != NOPTS && s.dts < Floor(c, last)
  }

  function Raise(c: Config, s: Stamps, last: int): Stamps {
    var floor := Floor(c, last);
    Stamps(if s.pts >= s.dts then Max(s.pts, floor) else s.pts, floor)
  }

  /** The repaired timestamps; the new last_mux_dts is their dts. */
  function Fixup(c: Config, s: Stamps, last: int): Result<Stamps, Error> {
    var s1 := Untangle(c, s, last);
    if !TooEarly(c, s1, last) then Ok(s1)
    else if c.exitOnError then Err(InvalidArgument)
    else Ok(Raise(c, s1, last))
  }

  /** Where the packet is already in order. */
  predicate InOrder(c: Config, s: Stamps, last: int) {
    && (!c.noTimestamps && s.pts != NOPTS && s.dts != NOPTS ==> s.dts <= s.pts)
    && !TooEarly(c, s, last)
  }

  lemma UnchangedIffInOrder(c: Config, s: Stamps, last: int)
    ensures Fixup(c, s, last) == Ok(s) <==> InOrder(c, s, last)
  {
    GuessIsMedian(s, last, Guess(s, last));
  }

  /** On exit a packet is decoded no later than it is presented. */
  lemma DtsNotAfterPts(c: Config, s: Stamps, last: int)
    requires !c.noTimestamps && Fixup(c, s, last).Ok?
    requires s.pts != NOPTS && s.dts != NOPTS
    ensures var r := Fixup(c, s, last).value; r.dts <= r.pts
  {
  }

  /**
   The pts is moved only when the new dts would be after it, and then to the dts. A
   missing pts stays missing.
   */
  lemma PtsFollowsDts(c: Config, s: Stamps, last: int)
    requires !c.noTimestamps && Fixup(c, s, last).Ok? && Representable(s)
    ensures var r := Fixup(c, s, last).value;
            && (s.pts == NOPTS ==> r.pts == NOPTS)
            && (s.dts == NOPTS ==> r == s)
            && (s.pts != NOPTS && s.dts != NOPTS ==> r.pts == if s.dts <= s.pts then Max(s.pts, r.dts) else r.dts)
  {
  }

  /** On exit the dts follows the previous one, and is moved no further than that requires. */
  lemma DtsFollowsLast(c: Config, s: Stamps, last: int)
    requires Ordered(c) && s.dts != NOPTS && last != NOPTS && Fixup(c, s, last).Ok?
    requires INT64_MIN < s.pts || s.pts == NOPTS
    ensures var r, s1 := Fixup(c, s, last).value, Untangle(c, s, last);
            r.dts >= Floor(c, last) && (s1.dts != NOPTS ==> r.dts == Max(s1.dts, Floor(c, last)))
  {
    GuessIsMedian(s, last, Guess(s, last));
  }

  /**
   A dts after its pts: on exit both are the median of pts, dts and the last dts plus
   one, raised to the smallest dts that may follow if that is later.
   */
  lemma RepairedToMedian(c: Config, s: Stamps, last: int, median: int)
    requires !c.noTimestamps && Representable(s) && s.pts != NOPTS && s.pts < s.dts
    requires IsMedian(median, s.pts, s.dts, last + 1)
    requires Fixup(c, s, last).Ok?
    ensures var r := Fixup(c, s, last).value;
            && r.pts == r.dts
            && r.dts == if last != NOPTS && (c.media.Audio? || c.media.Video? || c.media.Subtitle?)
                        then Max(median, last + if c.nonStrict then 0 else 1) else median
  {
    GuessIsMedian(s, last, median);
  }

  /**
   A packet is refused for its own dts alone: the guess made for one whose dts is
   after its pts never turns a refusal into an acceptance, nor the other way round.
   */
  lemma RefusedIff(c: Config, s: Stamps, last: int)
    requires Representable(s) && last >= NOPTS
    ensures Fixup(c, s, last).Err? <==>
            c.exitOnError && Ordered(c) && s.dts != NOPTS && last != NOPTS && s.dts < Floor(c, last)
  {
    GuessIsMedian(s, last, Guess(s, last));
  }

  // -------------------------------------------------------------------- runs

  predicate Representable(s: Stamps) { s.pts >= NOPTS && s.dts >= NOPTS }

  /** last_mux_dts after the first n packets, with exit_on_error off. */
  function LastDts(c: Config, ps: seq<Stamps>, n: nat): int
    requires n <= |ps| && !c.exitOnError
  {
    if n == 0 then NOPTS else Fixup(c, ps[n-1], LastDts(c, ps, n - 1)).value.dts
  }

  /** The dts given to packet i. */
  function OutDts(c: Config, ps: seq<Stamps>, i: nat): int
    requires i < |ps| && !c.exitOnError
  {
    LastDts(c, ps, i + 1)
  }

  lemma {:induction false} CarriedOn(c: Config, ps: seq<Stamps>, n: nat)
    requires n <= |ps| && !c.exitOnError && Ordered(c)
    requires forall i :: 0 <= i < n ==> Representable(ps[i])
    ensures LastDts(c, ps, n) >= NOPTS
    ensures n > 0 && ps[n-1].dts != NOPTS ==> LastDts(c, ps, n) > NOPTS
  {
    if n > 0 {
      CarriedOn(c, ps, n - 1);
      GuessIsMedian(ps[n-1], LastDts(c, ps, n - 1), Guess(ps[n-1], LastDts(c, ps, n - 1)));
    }
  }

  /**
   Order over any run of a timestamped audio, video or subtitle stream: among
   packets i to j that all carry a dts, the dts written are strictly increasing,
   or non-decreasing in a format that allows equal ones.
   */
  lemma {:induction false} OutDtsIncrease(c: Config, ps: seq<Stamps>, i: nat, j: nat)
    requires Ordered(c) && !c.exitOnError && i < j < |ps|
    requires forall k :: 0 <= k <= j ==> Representable(ps[k])
    requires forall k :: i <= k <= j ==> ps[k].dts != NOPTS
    ensures OutDts(c, ps, i) + (if c.nonStrict then 0 else j - i) <= OutDts(c, ps, j)
  {
    CarriedOn(c, ps, j);
    if i < j - 1 {
      OutDtsIncrease(c, ps, i, j - 1);
    }
    DtsFollowsLast(c, ps[j], LastDts(c, ps, j));
  }

  // ------------------------------------------------- packets without a dts

  /** The dts of a packet that follows one without a dts: nothing but its own timestamps decides. */
  function Fresh(s: Stamps): int { if s.dts != NOPTS && s.pts != NOPTS && s.dts > s.pts then s.pts else s.dts }

  lemma GapForgets(c: Config, ps: seq<Stamps>, j: nat)
    requires Ordered(c) && !c.exitOnError && 0 < j < |ps| && ps[j-1].dts == NOPTS && Representable(ps[j])
    ensures LastDts(c, ps, j) == NOPTS && OutDts(c, ps, j) == Fresh(ps[j])
  {
    var s := ps[j];
    if NOPTS < s.pts < s.dts {
      FirstGuessIsPts(s);
    }
  }

  /** The step from one dts to a later one that the container demands. */
  function Gap(c: Config): int { if c.nonStrict then 0 else 1 }

  /** After a packet without a dts, order with an earlier one is kept exactly when the new packet brings it itself. */
  lemma OrderAcrossGapIff(c: Config, ps: seq<Stamps>, i: nat, j: nat)
    requires Ordered(c) && !c.exitOnError && i < j < |ps| && Representable(ps[j])
    requires ps[i].dts != NOPTS && ps[j].dts != NOPTS && ps[j-1].dts == NOPTS
    ensures OutDts(c, ps, i) + Gap(c) <= OutDts(c, ps, j) <==> Fresh(ps[j]) >= Floor(c, OutDts(c, ps, i))
  {
    GapForgets(c, ps, j);
  }

  /** The dts written for the last of the first n packets that carries one; NOPTS before there is any. */
  function LastPresent(c: Config, ps: seq<Stamps>, n: nat): int
    requires n <= |ps| && !c.exitOnError
  {
    if n == 0 then NOPTS
    else if ps[n-1].dts != NOPTS then OutDts(c, ps, n - 1)
    else LastPresent(c, ps, n - 1)
  }

  /** Packet j does not resume, after one without a dts, before what was already written. */
  predicate ResumesInOrder(c: Config, ps: seq<Stamps>, j: nat)
    requires j < |ps| && !c.exitOnError
  {
    j > 0 && ps[j].dts != NOPTS && ps[j-1].dts == NOPTS && LastPresent(c, ps, j) != NOPTS ==>
      Fresh(ps[j]) >= Floor(c, LastPresent(c, ps, j))
  }

  /** Among the first n packets, every one with a dts is written after every earlier one with a dts. */
  ghost predicate WrittenInOrder(c: Config, ps: seq<Stamps>, n: nat)
    requires n <= |ps| && !c.exitOnError
  {
    forall i, j :: 0 <= i < j < n && ps[i].dts != NOPTS && ps[j].dts != NOPTS ==>
      OutDts(c, ps, i) + Gap(c) <= OutDts(c, ps, j)
  }

  lemma {:induction false} LastPresentIsOne(c: Config, ps: seq<Stamps>, n: nat)
    requires n <= |ps| && !c.exitOnError && LastPresent(c, ps, n) != NOPTS
    ensures exists i :: 0 <= i < n && ps[i].dts != NOPTS && LastPresent(c, ps, n) == OutDts(c, ps, i)
  {
    if n > 0 && ps[n-1].dts == NOPTS {
      LastPresentIsOne(c, ps, n - 1);
    }
  }

  lemma {:induction false} LastPresentIsHighest(c: Config, ps: seq<Stamps>, n: nat, i: nat)
    requires i < n <= |ps| && Ordered(c) && !c.exitOnError && ps[i].dts != NOPTS
    requires forall k :: 0 <= k < n ==> Representable(ps[k])
    requires WrittenInOrder(c, ps, n)
    ensures LastPresent(c, ps, n) != NOPTS && OutDts(c, ps, i) <= LastPresent(c, ps, n)
  {
    if ps[n-1].dts != NOPTS {
      CarriedOn(c, ps, n);
    } else {
      LastPresentIsHighest(c, ps, n - 1, i);
    }
  }

  /** The packet at j is written after the last one with a dts, unless it resumes too early. */
  lemma FollowsLastPresentIff(c: Config, ps: seq<Stamps>, j: nat)
    requires j < |ps| && Ordered(c) && !c.exitOnError && ps[j].dts != NOPTS && LastPresent(c, ps, j) != NOPTS
    requires forall k :: 0 <= k <= j ==> Representable(ps[k])
    ensures LastPresent(c, ps, j) + Gap(c) <= OutDts(c, ps, j) <==> ResumesInOrder(c, ps, j)
  {
    if ps[j-1].dts == NOPTS {
      GapForgets(c, ps, j);
    } else {
      DtsFollowsLast(c, ps[j], LastDts(c, ps, j));
    }
  }

  /**
   Order over any run, with or without missing dts: what is written increases
   exactly when every packet that follows one without a dts resumes in order.
   */
  lemma {:induction false} WrittenInOrderIff(c: Config, ps: seq<Stamps>, n: nat)
    requires n <= |ps| && Ordered(c) && !c.exitOnError
    requires forall k :: 0 <= k < n ==> Representable(ps[k])
    ensures WrittenInOrder(c, ps, n) <==> forall j :: 0 <= j < n ==> ResumesInOrder(c, ps, j)
  {
    if n > 0 {
      var j := n - 1;
      WrittenInOrderIff(c, ps, j);
      if WrittenInOrder(c, ps, j) && ps[j].dts != NOPTS {
        OneMoreInOrderIff(c, ps, j);
      }
    }
  }

  lemma OneMoreInOrderIff(c: Config, ps: seq<Stamps>, j: nat)
    requires j < |ps| && Ordered(c) && !c.exitOnError && ps[j].dts != NOPTS
    requires forall k :: 0 <= k <= j ==> Representable(ps[k])
    requires WrittenInOrder(c, ps, j)
    ensures WrittenInOrder(c, ps, j + 1) <==> ResumesInOrder(c, ps, j)
  {
    if LastPresent(c, ps, j) != NOPTS {
      FollowsLastPresentIff(c, ps, j);
      LastPresentIsOne(c, ps, j);
    }
    forall i | 0 <= i < j && ps[i].dts != NOPTS
      ensures LastPresent(c, ps, j) != NOPTS && OutDts(c, ps, i) <= LastPresent(c, ps, j)
    {
      LastPresentIsHighest(c, ps, j, i);
    }
  }

  /** So a packet without a dts can end the order. */
  lemma MissingDtsBreaksOrder()
    ensures var c := Config(Video, false, false, false);
            var ps := [Stamps(10, 10), Stamps(NOPTS, NOPTS), Stamps(3, 3)];
            !WrittenInOrder(c, ps, 3)
  {
    var c := Config(Video, false, false, false);
    var ps := [Stamps(10, 10), Stamps(NOPTS, NOPTS), Stamps(3, 3)];
    assert LastDts(c, ps, 0) == NOPTS;
    assert LastDts(c, ps, 1) == 10;
    OrderAcrossGapIff(c, ps, 0, 2);
  }
}
