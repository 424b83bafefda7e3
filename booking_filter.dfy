/** The filter of one poll cycle: which of the fetched bookings are worth
    announcing (controller.py, `check_bookings`, the `upcoming` list). */
module BookingFilter {
  import opened Timestamps

  /** One record of the bookings feed, as decoded from the JSON array. The
      requester id is kept as the text it is rendered to. */
  datatype Booking = Booking(callsign: string, name: string, userId: string,
                             timeStart: string, timeEnd: string,
                             deleted: bool, training: bool, event: bool, exam: bool)

  datatype Result<T, E> = Ok(value: T) | Err(error: E)

  /** The positions of interest, fixed for the life of the process. */
  const Positions: seq<string> := [
    "MNL_CTR", "RPLL_CTR", "RPLL_APP", "RPLL_TWR", "RPLL_GND", "RPLL_DEL",
    "RPLU_TWR", "RPUO_TWR", "RPMD_TWR", "RPMZ_TWR", "RPMC_TWR", "RPVM_TWR",
    "RPLI_TWR", "RPVB_TWR", "RPMR_TWR", "RPLL_S_TWR", "RPLL_S_GND", "RPLL_S_APP",
    "RPLL_M_APP", "RPLL_M_GND", "RPLL_M_TWR"
  ]

  // ------------------------------------------------------------ substrings

  predicate IsPrefix(p: string, s: string) {
    |p| <= |s| && s[..|p|] == p
  }

  /** `needle in hay` on strings: case-sensitive containment anywhere. A
      contained string is no longer than its container, and one of the same
      length is the container itself. */
  predicate IsSubstring(needle: string, hay: string)
    ensures IsSubstring(needle, hay) ==> |needle| <= |hay|
    ensures IsSubstring(needle, hay) && |needle| == |hay| ==> needle == hay
    decreases |hay|
  {
    IsPrefix(needle, hay) || (hay != [] && IsSubstring(needle, hay[1..]))
  }

  /** `needle` is found in `hay` starting at offset `i`. */
  predicate OccursAt(needle: string, hay: string, i: int) {
    0 <= i && i + |needle| <= |hay| && hay[i..i + |needle|] == needle
  }

  /** The scan agrees with the offset definition of containment. */
  lemma {:induction false} IsSubstringIff(needle: string, hay: string)
    ensures IsSubstring(needle, hay) <==> exists i :: OccursAt(needle, hay, i)
    decreases |hay|
  {
    if hay == [] {
      if needle == [] {
        assert OccursAt(needle, hay, 0);
      }
    } else {
      var tail := hay[1..];
      IsSubstringIff(needle, tail);
      if IsPrefix(needle, hay) {
        assert OccursAt(needle, hay, 0);
      }
      if IsSubstring(needle, tail) {
        var j :| OccursAt(needle, tail, j);
        assert hay[j + 1..j + 1 + |needle|] == tail[j..j + |needle|];
        assert OccursAt(needle, hay, j + 1);
      }
      forall i | OccursAt(needle, hay, i) ensures IsPrefix(needle, hay) || IsSubstring(needle, tail) {
        if i == 0 {
          assert hay[..|needle|] == hay[0..|needle|];
        } else {
          assert tail[i - 1..i - 1 + |needle|] == hay[i..i + |needle|];
          assert OccursAt(needle, tail, i - 1);
        }
      }
    }
  }

  /** A string is contained in anything built around it. */
  lemma SubstringOfSurrounding(needle: string, before: string, after: string)
    ensures IsSubstring(needle, before + needle + after)
  {
    var hay := before + needle + after;
    assert hay[|before|..|before| + |needle|] == needle;
    assert OccursAt(needle, hay, |before|);
    IsSubstringIff(needle, hay);
  }

  /** What is contained begins with a character of the container. */
  lemma {:induction false} SubstringFirstChar(needle: string, hay: string)
    requires needle != [] && IsSubstring(needle, hay)
    ensures needle[0] in hay
    decreases |hay|
  {
    if !IsPrefix(needle, hay) {
      SubstringFirstChar(needle, hay[1..]);
    } else {
      assert hay[0] == needle[0];
    }
  }

  // ----------------------------------------------------- the three filters

  /** Some position of interest occurs in the callsign. */
  predicate IsOfInterest(callsign: string) {
    exists k :: 0 <= k < |Positions| && IsSubstring(Positions[k], callsign)
  }

  /** The first two conditions: not withdrawn, and a position of interest. */
  predicate Screened(b: Booking) {
    !b.deleted && IsOfInterest(b.callsign)
  }

  /** The third condition: the start parses and is strictly after `now`. */
  predicate StartsAfter(b: Booking, now: DateTime) {
    Parse(b.timeStart).Some? && Before(now, Parse(b.timeStart).value)
  }

  /** A booking to announce: such a record is never deleted, and evaluating
      its conditions raises no parse error. */
  predicate Qualifies(b: Booking, now: DateTime)
    ensures Qualifies(b, now) ==> !b.deleted && Evaluates(b)
  {
    Screened(b) && StartsAfter(b, now)
  }

  /** The conditions, tried left to right and stopping at the first false
      one, finish without a parse error: the start time is only parsed
      once the first two conditions have held, so the start time of a
      deleted record, or of one whose callsign holds no position of
      interest, is never read. */
  predicate Evaluates(b: Booking)
    ensures b.deleted ==> Evaluates(b)
    ensures !IsOfInterest(b.callsign) ==> Evaluates(b)
  {
    !Screened(b) || Parse(b.timeStart).Some?
  }

  /** The bookings to announce, in feed order; or, when evaluating the
      conditions on some record fails to parse its start time, that record
      (the first such), and nothing else. */
  function FilterUpcoming(data: seq<Booking>, now: DateTime): (r: Result<seq<Booking>, Booking>)
    ensures r.Ok? <==> forall i :: 0 <= i < |data| ==> Evaluates(data[i])
    ensures r.Ok? ==> forall b :: b in r.value ==> Qualifies(b, now)
    ensures r.Ok? ==> forall b :: b in data && Qualifies(b, now) ==> b in r.value
    ensures r.Err? ==> r.error in data && Screened(r.error) && Parse(r.error.timeStart).None?
  {
    if data == [] then Ok([])
    else
      var b := data[0];
      if !Screened(b) then
        var r := FilterUpcoming(data[1..], now);
        assert forall i :: 1 <= i < |data| ==> data[i] == data[1..][i - 1];
        r
      else
        match Parse(b.timeStart)
        case None => Err(b)
        case Some(t) =>
          match FilterUpcoming(data[1..], now)
          case Err(e) => Err(e)
          case Ok(rest) =>
            assert forall i :: 1 <= i < |data| ==> data[i] == data[1..][i - 1];
            Ok(if Before(now, t) then [b] + rest else rest)
  }

  // -------------------------------------------------------------- lemmas

  /** `idx` lists, in increasing order, the positions in `data` of the
      elements of `kept`; they all satisfy `keep`, and every position whose
      element satisfies `keep` is listed. */
  ghost predicate IsSelection(kept: seq<Booking>, data: seq<Booking>, idx: seq<nat>, keep: Booking -> bool) {
    && |idx| == |kept|
    && (forall k :: 0 <= k < |idx| ==> idx[k] < |data| && kept[k] == data[idx[k]] && keep(data[idx[k]]))
    && (forall k, l :: 0 <= k < l < |idx| ==> idx[k] < idx[l])
    && (forall i :: 0 <= i < |data| && keep(data[i]) ==> i in idx)
  }

  /** The filtered list is the sub-sequence of the feed made of the
      qualifying records: `idx` gives, in increasing order, the feed position
      of each kept record, and holds exactly the qualifying positions, so
      order is kept and every qualifying record appears once. */
  lemma {:induction false} FilterIsOrderedSelection(data: seq<Booking>, now: DateTime)
    returns (idx: seq<nat>)
    requires FilterUpcoming(data, now).Ok?
    ensures IsSelection(FilterUpcoming(data, now).value, data, idx, b => Qualifies(b, now))
  {
    if data == [] {
      idx := [];
    } else {
      var tail := data[1..];
      FilterStep(data, now);
      var tidx := FilterIsOrderedSelection(tail, now);
      assert data == [data[0]] + tail;
      idx := SelectionStep(data[0], FilterUpcoming(tail, now).value, tail, tidx, b => Qualifies(b, now));
    }
  }

  /** A successful filter keeps the first record exactly when it qualifies,
      followed by what it keeps of the rest. */
  lemma FilterStep(data: seq<Booking>, now: DateTime)
    requires data != [] && FilterUpcoming(data, now).Ok?
    ensures var rest := FilterUpcoming(data[1..], now);
      && rest.Ok?
      && FilterUpcoming(data, now).value == if Qualifies(data[0], now) then [data[0]] + rest.value else rest.value
  {
  }

  /** One more record in front of the feed: the selection of the rest,
      shifted by one, preceded by 0 when the new record is kept. */
  lemma SelectionStep(b: Booking, kept: seq<Booking>, data: seq<Booking>, tidx: seq<nat>, keep: Booking -> bool)
    returns (idx: seq<nat>)
    requires IsSelection(kept, data, tidx, keep)
    ensures IsSelection(if keep(b) then [b] + kept else kept, [b] + data, idx, keep)
  {
    var pre: seq<nat> := if keep(b) then [0] else [];
    idx := pre + Shifted(tidx);
    StepPositions(b, kept, data, tidx, keep, pre, idx);
    StepOrder(tidx, pre, idx);
    StepCoverage(b, data, tidx, keep, pre, idx);
  }

  /** Every position one further on. */
  function Shifted(idx: seq<nat>): (r: seq<nat>)
    ensures |r| == |idx| && forall k :: 0 <= k < |r| ==> r[k] == idx[k] + 1
  {
    seq(|idx|, k requires 0 <= k < |idx| => idx[k] + 1)
  }

  lemma StepPositions(b: Booking, kept: seq<Booking>, data: seq<Booking>, tidx: seq<nat>,
                      keep: Booking -> bool, pre: seq<nat>, idx: seq<nat>)
    requires |tidx| == |kept|
    requires forall k :: 0 <= k < |tidx| ==> tidx[k] < |data| && kept[k] == data[tidx[k]] && keep(data[tidx[k]])
    requires pre == if keep(b) then [0] else []
    requires idx == pre + Shifted(tidx)
    ensures var full, out := [b] + data, if keep(b) then [b] + kept else kept;
      && |idx| == |out|
      && forall k :: 0 <= k < |idx| ==> idx[k] < |full| && out[k] == full[idx[k]] && keep(full[idx[k]])
  {
    var full, out := [b] + data, if keep(b) then [b] + kept else kept;
    forall k | 0 <= k < |idx| ensures idx[k] < |full| && out[k] == full[idx[k]] && keep(full[idx[k]]) {
      if k < |pre| {
        assert idx[k] == 0 && out[k] == b;
      } else {
        var j := k - |pre|;
        assert idx[k] == tidx[j] + 1 && out[k] == kept[j];
        assert full[tidx[j] + 1] == data[tidx[j]];
      }
    }
  }

  lemma StepOrder(tidx: seq<nat>, pre: seq<nat>, idx: seq<nat>)
    requires forall k, l :: 0 <= k < l < |tidx| ==> tidx[k] < tidx[l]
    requires pre == [] || pre == [0]
    requires idx == pre + Shifted(tidx)
    ensures forall k, l :: 0 <= k < l < |idx| ==> idx[k] < idx[l]
  {
    forall k, l | 0 <= k < l < |idx| ensures idx[k] < idx[l] {
      assert idx[l] == tidx[l - |pre|] + 1;
      if k >= |pre| {
        assert idx[k] == tidx[k - |pre|] + 1;
      }
    }
  }

  lemma StepCoverage(b: Booking, data: seq<Booking>, tidx: seq<nat>, keep: Booking -> bool,
                     pre: seq<nat>, idx: seq<nat>)
    requires forall i :: 0 <= i < |data| && keep(data[i]) ==> i in tidx
    requires pre == if keep(b) then [0] else []
    requires idx == pre + Shifted(tidx)
    ensures forall i :: 0 <= i < |[b] + data| && keep(([b] + data)[i]) ==> i in idx
  {
    var full := [b] + data;
    forall i | 0 <= i < |full| && keep(full[i]) ensures i in idx {
      if i == 0 {
        assert idx[0] == 0;
      } else {
        assert full[i] == data[i - 1];
        var j :| 0 <= j < |tidx| && tidx[j] == i - 1;
        assert idx[j + |pre|] == i;
      }
    }
  }

  /** When the cycle aborts, the reported record is the first one whose
      conditions could not be evaluated; every record before it evaluated. */
  lemma {:induction false} ParseErrorIsFirst(data: seq<Booking>, now: DateTime) returns (i: nat)
    requires FilterUpcoming(data, now).Err?
    ensures i < |data| && data[i] == FilterUpcoming(data, now).error
    ensures !Evaluates(data[i])
    ensures forall j :: 0 <= j < i ==> Evaluates(data[j])
  {
    if !Evaluates(data[0]) {
      i := 0;
    } else {
      var j := ParseErrorIsFirst(data[1..], now);
      i := j + 1;
    }
  }

  /** Filtering the filtered list changes nothing. */
  lemma {:induction false} FilterIdempotent(data: seq<Booking>, now: DateTime)
    requires FilterUpcoming(data, now).Ok?
    ensures FilterUpcoming(FilterUpcoming(data, now).value, now) == FilterUpcoming(data, now)
  {
    if data != [] {
      FilterIdempotent(data[1..], now);
      var rest := FilterUpcoming(data[1..], now).value;
      if Qualifies(data[0], now) {
        assert ([data[0]] + rest)[1..] == rest;
      }
    }
  }

  /** A withdrawn booking is never announced, whatever its other fields. */
  lemma DeletedNeverKept(data: seq<Booking>, now: DateTime, b: Booking)
    requires FilterUpcoming(data, now).Ok? && b.deleted
    ensures b !in FilterUpcoming(data, now).value
  {
  }

  /** A callsign equal to a listed position, or extending one, is of
      interest; a booking with it is kept when it starts after `now`. */
  lemma ListedPositionKept(data: seq<Booking>, now: DateTime, b: Booking, k: nat, suffix: string)
    requires k < |Positions| && b.callsign == Positions[k] + suffix
    requires !b.deleted && StartsAfter(b, now) && b in data
    requires FilterUpcoming(data, now).Ok?
    ensures b in FilterUpcoming(data, now).value
  {
    SubstringOfSurrounding(Positions[k], [], suffix);
    assert [] + Positions[k] + suffix == b.callsign;
  }

  /** A callsign containing no listed position is never kept. */
  lemma UnlistedCallsignExcluded(data: seq<Booking>, now: DateTime, b: Booking)
    requires FilterUpcoming(data, now).Ok? && !IsOfInterest(b.callsign)
    ensures b !in FilterUpcoming(data, now).value
  {
  }

  /** A start that is not strictly later than `now` (the same moment, or an
      earlier one) excludes the booking. */
  lemma StartNotLaterExcluded(data: seq<Booking>, now: DateTime, b: Booking)
    requires FilterUpcoming(data, now).Ok?
    requires Parse(b.timeStart).Some?
    requires Parse(b.timeStart).value == now || Before(Parse(b.timeStart).value, now)
    ensures b !in FilterUpcoming(data, now).value
  {
    BeforeIsStrictTotalOrder(now, Parse(b.timeStart).value, now);
  }

  /** Examples of the position policy: `RPLL_CTR_1` is of interest through
      `RPLL_CTR`; `EGLL_APP` holds neither `R` nor `M`, with which every
      listed position begins, so it is not. */
  lemma PositionExamples()
    ensures IsOfInterest("RPLL_CTR_1")
    ensures !IsOfInterest("EGLL_APP")
  {
    SubstringOfSurrounding("RPLL_CTR", [], "_1");
    assert Positions[1] + "_1" == "RPLL_CTR_1";
    forall k | 0 <= k < |Positions| ensures !IsSubstring(Positions[k], "EGLL_APP") {
      if IsSubstring(Positions[k], "EGLL_APP") {
        SubstringFirstChar(Positions[k], "EGLL_APP");
        assert false;
      }
    }
  }
}
